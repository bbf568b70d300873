/** The design-system button: which inline style it ends up with, when it is
    disabled, whether a spinner precedes its children, and its class string. */
module Button {
  import opened Wrappers
  import opened DesignTokens
  import opened ClassNames

  /** An inline style object: property name to value (numbers written as text). */
  type Style = map<string, string>

  datatype Variant = Primary | Secondary | Outline | Ghost
  datatype Size = Sm | Md | Lg

  function VariantBase(background: string, color: string, border: string): Style {
    map[
      "backgroundColor" := background,
      "color" := color,
      "padding" := "0.75rem 1.5rem",
      "border" := border,
      "cursor" := "pointer",
      "transition" := "all 0.2s ease",
      "fontFamily" := "Inter, sans-serif",
      "fontSize" := "1.125rem",
      "fontWeight" := "500",
      "letterSpacing" := "-0.09em"
    ]
  }

  /** `buttonVariants[variant]`. */
  function VariantStyle(v: Variant): Style {
    match v
    case Primary => VariantBase(Green, Black, "none")
    case Secondary => VariantBase(Dun, Black, "none")
    case Outline => VariantBase("transparent", Grey800, "2px solid " + Grey500)
    case Ghost => VariantBase("transparent", Grey800, "none")
  }

  /** `sizeVariants[size]`. */
  function SizeStyle(s: Size): Style {
    match s
    case Sm => map["padding" := "0.5rem 1rem", "fontSize" := "0.875rem"]
    case Md => map["padding" := "0.75rem 1.5rem", "fontSize" := "1rem"]
    case Lg => map["padding" := "1rem 2rem", "fontSize" := "1.125rem"]
  }

  /** What `isLoading && { ... }` spreads in while loading. */
  const LoadingOverrides: Style := map["opacity" := "0.5", "cursor" := "not-allowed"]

  /** The props the button reads; every one of them may be left out. */
  datatype ButtonProps = ButtonProps(
    className: Option<string>,
    variant: Option<Variant>,
    size: Option<Size>,
    isLoading: Option<bool>,
    disabled: Option<bool>,
    style: Style)

  /** Defaults of the destructuring: 'primary' and 'md'. */
  function VariantOf(p: ButtonProps): Variant {
    if p.variant.Some? then p.variant.value else Primary
  }

  function SizeOf(p: ButtonProps): Size {
    if p.size.Some? then p.size.value else Md
  }

  predicate Loading(p: ButtonProps) {
    p.isLoading == Some(true)
  }

  /** `{ ...variant, ...size, ...(isLoading && overrides), ...style }`: a key
      set later wins. */
  function ButtonStyle(p: ButtonProps): (r: Style)
    ensures forall k :: k in r <==>
      k in VariantStyle(VariantOf(p)) || k in SizeStyle(SizeOf(p)) ||
      (Loading(p) && k in LoadingOverrides) || k in p.style
    ensures forall k :: k in p.style ==> r[k] == p.style[k]
    ensures forall k :: k !in p.style && Loading(p) && k in LoadingOverrides ==>
      r[k] == LoadingOverrides[k]
    ensures forall k ::
      (k !in p.style && !(Loading(p) && k in LoadingOverrides) && k in SizeStyle(SizeOf(p)))
      ==> r[k] == SizeStyle(SizeOf(p))[k]
    ensures forall k ::
      (k !in p.style && !(Loading(p) && k in LoadingOverrides) &&
       k !in SizeStyle(SizeOf(p)) && k in VariantStyle(VariantOf(p)))
      ==> r[k] == VariantStyle(VariantOf(p))[k]
  {
    VariantStyle(VariantOf(p)) + SizeStyle(SizeOf(p))
      + (if Loading(p) then LoadingOverrides else map[]) + p.style
  }

  /** What the precedence means for the keys callers notice: the size always
      sets padding and font size, loading dims the button and blocks the
      pointer, and a caller's own style overrides all of it. */
  lemma ButtonStyleEffects(p: ButtonProps)
    ensures "padding" !in p.style ==> ButtonStyle(p)["padding"] == SizeStyle(SizeOf(p))["padding"]
    ensures "fontSize" !in p.style ==> ButtonStyle(p)["fontSize"] == SizeStyle(SizeOf(p))["fontSize"]
    ensures "cursor" !in p.style ==>
      ButtonStyle(p)["cursor"] == if Loading(p) then "not-allowed" else "pointer"
    ensures "opacity" !in p.style ==> ("opacity" in ButtonStyle(p) <==> Loading(p))
    ensures "opacity" !in p.style && Loading(p) ==> ButtonStyle(p)["opacity"] == "0.5"
  {
    var s := SizeOf(p);
    assert "padding" in SizeStyle(s) && "fontSize" in SizeStyle(s) && "opacity" !in SizeStyle(s) by {
      if s == Sm {} else if s == Md {} else {}
    }
    var v := VariantOf(p);
    assert "cursor" in VariantStyle(v) && VariantStyle(v)["cursor"] == "pointer" && "opacity" !in VariantStyle(v) by {
      if v == Primary {} else if v == Secondary {} else if v == Outline {} else {}
    }
  }

  /** `disabled={disabled || isLoading}`. */
  function IsDisabled(p: ButtonProps): (r: bool)
    ensures r <==> p.disabled == Some(true) || p.isLoading == Some(true)
    ensures Loading(p) ==> r
  {
    p.disabled == Some(true) || Loading(p)
  }

  /** The fixed utility classes every button carries. */
  const BaseClasses :=
    "inline-flex items-center justify-center transition-all focus-visible:outline-none "
    + "focus-visible:ring-2 focus-visible:ring-offset-2 disabled:opacity-50 disabled:pointer-events-none"

  /** `cn(base, className)`: the base classes, then the caller's. */
  function ButtonClass(p: ButtonProps): (r: string)
    ensures BaseClasses <= r
    ensures !Truthy(p.className) ==> r == BaseClasses
    ensures Truthy(p.className) ==> r == BaseClasses + " " + p.className.value
  {
    CnAppend([Str(BaseClasses)], [OptArg(p.className)]);
    CnSingle(Some(BaseClasses));
    CnSingle(p.className);
    Cn([Str(BaseClasses), OptArg(p.className)])
  }

  /** The button's content: a spinner while loading, then the children. */
  datatype Part<T> = Spinner | Child(node: T)

  function ButtonContent<T>(p: ButtonProps, children: seq<T>): (r: seq<Part<T>>)
    ensures |r| == |children| + (if Loading(p) then 1 else 0)
    ensures (exists i :: 0 <= i < |r| && r[i].Spinner?) <==> Loading(p)
    ensures Loading(p) ==> r[0].Spinner?
    ensures var off := |r| - |children|;
      forall i :: 0 <= i < |children| ==> r[off + i] == Child(children[i])
  {
    var kids := seq(|children|, i requires 0 <= i < |children| => Child(children[i]));
    var r := (if Loading(p) then [Spinner] else []) + kids;
    assert Loading(p) ==> r[0].Spinner?;
    r
  }
}
