/** The layout switch: studio routes get the page bare, every other route
    gets the page inside the loading and modal providers, with the
    navigation bar above it and the footer below it. */
module ConditionalLayout {
  import opened Wrappers
  import ModalContext
  import LoadingContext

  datatype Provider = LoadingProvider | ModalProvider

  /** The element tree the layout returns; the page itself, the navigation
      bar and the footer are leaves. */
  datatype Tree =
    | Children
    | NavbarSlot
    | FooterSlot
    | Group(kids: seq<Tree>)
    | Wrap(provider: Provider, kids: seq<Tree>)

  /** `pathname?.startsWith('/studio')`: an absent path name is not a studio
      route. */
  predicate IsStudioRoute(pathname: Option<string>) {
    pathname.Some? && "/studio" <= pathname.value
  }

  /** `ClientLayout`: the navigation bar, then the page inside `main`. */
  function ClientLayout(children: Tree): Tree {
    Group([NavbarSlot, Group([children])])
  }

  /** Every leaf of a tree, in document order, with the providers enclosing it. */
  function Leaves(t: Tree, above: set<Provider>): seq<(Tree, set<Provider>)>
    decreases t, 1
  {
    match t
    case Group(kids) => LeavesOf(kids, above)
    case Wrap(p, kids) => LeavesOf(kids, above + {p})
    case _ => [(t, above)]
  }

  function LeavesOf(kids: seq<Tree>, above: set<Provider>): seq<(Tree, set<Provider>)>
    decreases kids, 0
  {
    if |kids| == 0 then [] else Leaves(kids[0], above) + LeavesOf(kids[1..], above)
  }

  /** `ConditionalLayout`: what it renders for a path name, stated as the
      leaves it produces and the providers above each. */
  function Layout(pathname: Option<string>): (r: Tree)
    ensures IsStudioRoute(pathname) ==> Leaves(r, {}) == [(Children, {})]
    ensures !IsStudioRoute(pathname) ==>
      var both := {LoadingProvider, ModalProvider};
      Leaves(r, {}) == [(NavbarSlot, both), (Children, both), (FooterSlot, both)]
  {
    if IsStudioRoute(pathname) then
      var r := Group([Children]);
      assert LeavesOf([Children], {}) == [(Children, {})] by {
        assert [Children][1..] == [];
      }
      r
    else
      var both := {LoadingProvider, ModalProvider};
      var r := Wrap(LoadingProvider, [Wrap(ModalProvider, [ClientLayout(Children), FooterSlot])]);
      assert {LoadingProvider} + {ModalProvider} == both;
      LayoutLeaves(both);
      var middle := [Wrap(ModalProvider, [ClientLayout(Children), FooterSlot])];
      assert middle[1..] == [];
      assert Leaves(middle[0], {LoadingProvider}) == LeavesOf([ClientLayout(Children), FooterSlot], both);
      assert LeavesOf(middle, {LoadingProvider}) == Leaves(middle[0], {LoadingProvider});
      assert {} + {LoadingProvider} == {LoadingProvider};
      assert Leaves(r, {}) == LeavesOf(middle, {LoadingProvider});
      r
  }

  lemma LayoutLeaves(both: set<Provider>)
    ensures LeavesOf([ClientLayout(Children), FooterSlot], both)
         == [(NavbarSlot, both), (Children, both), (FooterSlot, both)]
  {
    var inner := [Children];
    assert inner[1..] == [];
    assert LeavesOf(inner, both) == [(Children, both)];
    var client := [NavbarSlot, Group(inner)];
    assert client[1..] == [Group(inner)];
    assert client[1..][1..] == [];
    assert Leaves(Group(inner), both) == [(Children, both)];
    assert LeavesOf(client[1..], both) == [(Children, both)];
    assert Leaves(NavbarSlot, both) == [(NavbarSlot, both)];
    assert LeavesOf(client, both) == [(NavbarSlot, both), (Children, both)];
    var top := [ClientLayout(Children), FooterSlot];
    assert top[1..] == [FooterSlot];
    assert top[1..][1..] == [];
    assert Leaves(ClientLayout(Children), both) == LeavesOf(client, both);
    assert LeavesOf(top[1..], both) == [(FooterSlot, both)];
  }

  /** A leaf's context hooks succeed exactly when the matching provider
      encloses it: outside the studio the navigation bar, the page and the
      footer may all call `useModal` and `useLoading`; under the studio the
      page has neither provider, so both hooks throw there. */
  lemma HooksAvailable(pathname: Option<string>, i: nat)
    requires i < |Leaves(Layout(pathname), {})|
    ensures var ctx := Leaves(Layout(pathname), {})[i].1;
      var modal := if ModalProvider in ctx then Some(ModalContext.Initial) else None;
      (ModalContext.UseModal(modal).Success? <==> !IsStudioRoute(pathname))
    ensures var ctx := Leaves(Layout(pathname), {})[i].1;
      var loading := if LoadingProvider in ctx then Some(true) else None;
      (LoadingContext.UseLoading(loading).Success? <==> !IsStudioRoute(pathname))
  {
  }
}
