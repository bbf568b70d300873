/** `cn`, the class-name joiner (one body in both the general utilities and
    the design-system library), and `createComponentStyles`, which builds
    a class string from a base, a variant table and extra classes. */
module ClassNames {
  import opened Wrappers
  import opened Strings

  /** One argument of `cn`: a string, `undefined`, `null` or a boolean. The
      design-system copy's type admits only `false` among booleans; the body
      is the same, so one model serves both. */
  datatype ClassArg = Str(s: string) | Undefined | Null | Bool(b: bool)

  /** `Boolean(arg)`: empty strings, `undefined`, `null` and `false` are dropped. */
  predicate Kept(a: ClassArg) {
    match a
    case Str(s) => s != ""
    case Bool(b) => b
    case _ => false
  }

  /** How `join` writes a surviving argument: a string as itself, `true` as "true". */
  function Token(a: ClassArg): string
    requires Kept(a)
  {
    match a
    case Str(s) => s
    case Bool(_) => "true"
  }

  /** `classes.filter(Boolean)` written out as the strings `join` will use. */
  function Survivors(args: seq<ClassArg>): (r: seq<string>)
    ensures |r| <= |args|
    ensures forall i :: 0 <= i < |r| ==> r[i] != ""
    decreases |args|
  {
    if |args| == 0 then []
    else (if Kept(args[0]) then [Token(args[0])] else []) + Survivors(args[1..])
  }

  /** `cn(...classes)`: the surviving arguments joined by single blanks, so
      empty exactly when nothing survives, and a lone survivor as itself. */
  function Cn(args: seq<ClassArg>): (r: string)
    ensures r == "" <==> Survivors(args) == []
    ensures |Survivors(args)| == 1 ==> r == Survivors(args)[0]
    ensures |Survivors(args)| > 1 ==> Survivors(args)[0] + " " <= r
  {
    JoinEmpty(Survivors(args), " ");
    Join(Survivors(args), " ")
  }

  /** Filtering distributes over concatenation, so the survivors keep their
      relative order and nothing is added. */
  lemma {:induction false} SurvivorsAppend(a: seq<ClassArg>, b: seq<ClassArg>)
    ensures Survivors(a + b) == Survivors(a) + Survivors(b)
    decreases |a|
  {
    if |a| == 0 {
      assert a + b == b;
    } else {
      assert (a + b)[0] == a[0];
      assert (a + b)[1..] == a[1..] + b;
      SurvivorsAppend(a[1..], b);
    }
  }

  /** An argument survives exactly when it is truthy, at its own place. */
  lemma {:induction false} SurvivorsExactly(args: seq<ClassArg>)
    ensures Survivors(args) == [] <==> forall i :: 0 <= i < |args| ==> !Kept(args[i])
    decreases |args|
  {
    if |args| > 0 {
      SurvivorsExactly(args[1..]);
      assert forall i :: 1 <= i < |args| ==> args[i] == args[1..][i - 1];
    }
  }

  /** `cn` yields "" exactly when no argument is truthy. */
  lemma CnEmpty(args: seq<ClassArg>)
    ensures Cn(args) == "" <==> forall i :: 0 <= i < |args| ==> !Kept(args[i])
  {
    JoinEmpty(Survivors(args), " ");
    SurvivorsExactly(args);
  }

  /** Splitting the result on blanks gives back the surviving arguments, in
      order, when none of them contains a blank. */
  lemma CnSplit(args: seq<ClassArg>)
    requires Survivors(args) != []
    requires forall i :: 0 <= i < |Survivors(args)| ==> ' ' !in Survivors(args)[i]
    ensures Split(Cn(args), ' ') == Survivors(args)
  {
    SplitJoin(Survivors(args), ' ');
  }

  /** `cn(a..., b...)` is `cn(a...)` and `cn(b...)` joined by one blank when
      both are non-empty; a falsy side contributes nothing. */
  lemma CnAppend(a: seq<ClassArg>, b: seq<ClassArg>)
    ensures Cn(a + b) ==
      if Cn(a) == "" then Cn(b)
      else if Cn(b) == "" then Cn(a)
      else Cn(a) + " " + Cn(b)
  {
    SurvivorsAppend(a, b);
    JoinEmpty(Survivors(a), " ");
    JoinEmpty(Survivors(b), " ");
    if Survivors(a) == [] {
      assert Survivors(a + b) == Survivors(b);
    } else if Survivors(b) == [] {
      assert Survivors(a + b) == Survivors(a);
    } else {
      JoinAppend(Survivors(a), Survivors(b), " ");
    }
  }

  /** A `true` argument is not filtered out and prints as "true"; the four
      falsy kinds all vanish. */
  lemma CnKeepsTrue(s: string)
    requires s != ""
    ensures Cn([Str(s), Bool(true)]) == s + " true"
    ensures Cn([Bool(false), Str(s), Null, Undefined, Str("")]) == s
  {
    assert Survivors([Bool(true)]) == ["true"] by {
      assert [Bool(true)][1..] == [];
    }
    assert [Str(s), Bool(true)][1..] == [Bool(true)];
    assert Survivors([Str(s), Bool(true)]) == [s, "true"];
    assert [s, "true"][1..] == ["true"];
    assert Join([s, "true"], " ") == s + " " + "true";
    assert s + " " + "true" == s + " true";
    var falsy := [Bool(false), Str(s), Null, Undefined, Str("")];
    assert Survivors(falsy[4..]) == [] by { assert falsy[4..][1..] == []; }
    assert falsy[3..][1..] == falsy[4..];
    assert Survivors(falsy[3..]) == [];
    assert falsy[2..][1..] == falsy[3..];
    assert Survivors(falsy[2..]) == [];
    assert falsy[1..][1..] == falsy[2..];
    assert Survivors(falsy[1..]) == [s];
  }

  /** An optional string as a `cn` argument. */
  function OptArg(o: Option<string>): ClassArg {
    if o.Some? then Str(o.value) else Undefined
  }

  /** `variants[variant] || variants.default`, with the parameter defaulting
      to 'default' when the caller passes none. */
  function SelectVariant(variants: map<string, string>, variant: Option<string>): (r: Option<string>)
    ensures var v := if variant.Some? then variant.value else "default";
      (v in variants && variants[v] != "" ==> r == Some(variants[v])) &&
      (!(v in variants && variants[v] != "") && "default" in variants ==> r == Some(variants["default"])) &&
      (!(v in variants && variants[v] != "") && "default" !in variants ==> r == None)
  {
    var v := if variant.Some? then variant.value else "default";
    if v in variants && variants[v] != "" then Some(variants[v])
    else if "default" in variants then Some(variants["default"])
    else None
  }

  /** `cn` of a single optional string is that string, or "" when absent. */
  lemma CnSingle(o: Option<string>)
    ensures Cn([OptArg(o)]) == if Truthy(o) then o.value else ""
  {
    assert [OptArg(o)][1..] == [];
  }

  /** The token an optional string contributes to a class string: itself
      when truthy, nothing otherwise. */
  function Present(o: Option<string>): (r: seq<string>)
    ensures |r| <= 1
    ensures r == [] <==> !Truthy(o)
  {
    if Truthy(o) then [o.value] else []
  }

  lemma SurvivorsOfOpt(o: Option<string>)
    ensures Survivors([OptArg(o)]) == Present(o)
  {
    assert [OptArg(o)][1..] == [];
  }

  /** The survivors of three arguments are each one's survivors, in order. */
  lemma SurvivorsOfThree(x: ClassArg, y: ClassArg, z: ClassArg)
    ensures Survivors([x, y, z]) == Survivors([x]) + Survivors([y]) + Survivors([z])
  {
    assert [x, y, z] == [x] + [y, z];
    assert [y, z] == [y] + [z];
    SurvivorsAppend([x], [y, z]);
    SurvivorsAppend([y], [z]);
  }

  /** The function returned by `createComponentStyles(base, variants)`,
      applied to a variant and optional extra classes: the base, the chosen
      variant's classes and the extra classes, in that order, each only when
      truthy and separated by single blanks. */
  function ComponentStyles(base: string, variants: map<string, string>,
                           variant: Option<string>, additional: Option<string>): (r: string)
    ensures r == Join(Present(Some(base)) + Present(SelectVariant(variants, variant)) + Present(additional), " ")
    ensures base != "" ==> base <= r
    ensures Truthy(additional) ==>
      |additional.value| <= |r| && r[|r| - |additional.value|..] == additional.value
    ensures r == "" <==> base == "" && !Truthy(SelectVariant(variants, variant)) && !Truthy(additional)
    ensures var sel := SelectVariant(variants, variant);
      (' ' !in base && (sel.Some? ==> ' ' !in sel.value) &&
       (additional.Some? ==> ' ' !in additional.value) && r != "")
      ==> Split(r, ' ') == Present(Some(base)) + Present(sel) + Present(additional)
  {
    var chosen := OptArg(SelectVariant(variants, variant));
    var extra := OptArg(additional);
    ComponentStylesParts(base, chosen, extra, SelectVariant(variants, variant), additional);
    ComponentStylesTokens(base, chosen, extra, SelectVariant(variants, variant), additional);
    Cn([Str(base), chosen, extra])
  }

  /** `cn(base, variant, additional)` for any variant string: the base
      leads, the extra classes end the string, and only falsy parts leave it
      empty. */
  lemma ComponentStylesParts(base: string, chosen: ClassArg, extra: ClassArg,
                             sel: Option<string>, additional: Option<string>)
    requires chosen == OptArg(sel) && extra == OptArg(additional)
    ensures var r := Cn([Str(base), chosen, extra]);
      (base != "" ==> base <= r) &&
      (Truthy(additional) ==>
         |additional.value| <= |r| && r[|r| - |additional.value|..] == additional.value) &&
      (r == "" <==> base == "" && !Truthy(sel) && !Truthy(additional))
  {
    CnSingle(Some(base));
    CnSingle(sel);
    CnSingle(additional);
    assert [Str(base), chosen, extra] == [Str(base)] + [chosen, extra];
    assert [chosen, extra] == [chosen] + [extra];
    CnAppend([chosen], [extra]);
    CnAppend([Str(base)], [chosen, extra]);
    var tail := Cn([chosen, extra]);
    var r := Cn([Str(base), chosen, extra]);
    if Truthy(additional) {
      var t := additional.value;
      assert tail == t || tail == Cn([chosen]) + " " + t;
      assert tail[|tail| - |t|..] == t;
      assert r == tail || r == base + " " + tail;
      assert r[|r| - |t|..] == t;
    }
  }

  /** The tokens of `cn(base, variant, additional)`: the truthy parts in
      that order; when none holds a blank, splitting on blanks recovers them. */
  lemma ComponentStylesTokens(base: string, chosen: ClassArg, extra: ClassArg,
                              sel: Option<string>, additional: Option<string>)
    requires chosen == OptArg(sel) && extra == OptArg(additional)
    ensures var parts := Present(Some(base)) + Present(sel) + Present(additional);
      Survivors([Str(base), chosen, extra]) == parts &&
      Cn([Str(base), chosen, extra]) == Join(parts, " ") &&
      ((' ' !in base && (sel.Some? ==> ' ' !in sel.value) &&
        (additional.Some? ==> ' ' !in additional.value) && parts != [])
       ==> Split(Cn([Str(base), chosen, extra]), ' ') == parts)
  {
    SurvivorsOfThree(Str(base), chosen, extra);
    SurvivorsOfOpt(Some(base));
    SurvivorsOfOpt(sel);
    SurvivorsOfOpt(additional);
    var parts := Present(Some(base)) + Present(sel) + Present(additional);
    if parts != [] && ' ' !in base && (sel.Some? ==> ' ' !in sel.value) &&
       (additional.Some? ==> ' ' !in additional.value) {
      CnSplit([Str(base), chosen, extra]);
    }
  }
}
