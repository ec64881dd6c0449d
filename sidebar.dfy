/** The dashboard sidebar: the `cn` class joiner and which navigation item is active. */
module Sidebar {
  import opened Strings

  /** An argument of `cn`: a string, a boolean or undefined. */
  datatype ClassArg = Text(s: string) | Flag(b: bool) | Undefined

  /** `Boolean(arg)`. */
  predicate Truthy(a: ClassArg)
  {
    (a.Text? && a.s != "") || (a.Flag? && a.b)
  }

  /** What `join` writes for a kept argument; `true` is written as "true". */
  function Written(a: ClassArg): string
  {
    match a
    case Text(s) => s
    case Flag(b) => if b then "true" else "false"
    case Undefined => "undefined"
  }

  /** The kept arguments, written out, in order. */
  function Kept(args: seq<ClassArg>): (r: seq<string>)
    ensures |r| <= |args|
    ensures forall k :: 0 <= k < |r| ==> r[k] != ""
  {
    if |args| == 0 then []
    else (if Truthy(args[0]) then [Written(args[0])] else []) + Kept(args[1..])
  }

  /** `cn(...classes)`: `classes.filter(Boolean).join(" ")`. */
  function Cn(args: seq<ClassArg>): string
  {
    Join(Kept(args), " ")
  }

  lemma {:induction false} KeptAppend(a: seq<ClassArg>, b: seq<ClassArg>)
    ensures Kept(a + b) == Kept(a) + Kept(b)
    decreases |a|
  {
    if |a| > 0 {
      assert (a + b)[1..] == a[1..] + b;
      KeptAppend(a[1..], b);
    } else {
      assert a + b == b;
    }
  }

  /** A falsy argument anywhere changes nothing: false, undefined and "" are dropped. */
  lemma FalsyDropped(a: seq<ClassArg>, x: ClassArg, b: seq<ClassArg>)
    requires !Truthy(x)
    ensures Cn(a + [x] + b) == Cn(a + b)
  {
    KeptAppend(a + [x], b);
    KeptAppend(a, [x]);
    KeptAppend(a, b);
    KeptFalsy(x);
    assert Kept(a + [x] + b) == Kept(a) + Kept(b);
  }

  lemma KeptFalsy(x: ClassArg)
    requires !Truthy(x)
    ensures Kept([x]) == []
  {
    assert [x][1..] == [];
  }

  /**
   * When no class name holds a space, splitting the result at the spaces
   * gives back exactly the truthy arguments, in order.
   */
  lemma CnSplitsBack(args: seq<ClassArg>)
    requires forall k :: 0 <= k < |args| && args[k].Text? ==> ' ' !in args[k].s
    requires |Kept(args)| >= 1
    ensures Split(Cn(args), ' ') == Kept(args)
  {
    KeptAvoidsSpace(args);
    SplitJoin(Kept(args), ' ');
  }

  lemma {:induction false} KeptAvoidsSpace(args: seq<ClassArg>)
    requires forall k :: 0 <= k < |args| && args[k].Text? ==> ' ' !in args[k].s
    ensures forall k :: 0 <= k < |Kept(args)| ==> ' ' !in Kept(args)[k]
    decreases |args|
  {
    if |args| > 0 {
      KeptAvoidsSpace(args[1..]);
      var h := if Truthy(args[0]) then [Written(args[0])] else [];
      assert forall k :: 0 <= k < |h| ==> ' ' !in h[k] by {
        if args[0].Flag? {
          assert "true"[0] != ' ' && "true"[1] != ' ' && "true"[2] != ' ' && "true"[3] != ' ';
        }
      }
      assert Kept(args) == h + Kept(args[1..]);
    }
  }

  /** The navigation entries. */
  datatype NavItem = NavItem(href: string, caption: string)

  const Nav: seq<NavItem> := [
    NavItem("/dashboard/board", "Dashboard"),
    NavItem("/dashboard/clients", "Clientes"),
    NavItem("/dashboard/properties", "Propiedades"),
    NavItem("/dashboard/simulate", "Simulaciones")]

  /** `pathname === item.href || pathname.startsWith(item.href + "/")`. */
  predicate Active(pathname: string, href: string)
  {
    pathname == href || StartsWith(pathname, href + "/")
  }

  /** Every page below a section keeps the section active. */
  lemma NestedPageActive(href: string, rest: string)
    ensures Active(href + "/" + rest, href)
  {
    assert href + "/" <= href + "/" + rest;
  }

  /** A path that continues the href with anything but '/' is another route, not a page below it. */
  lemma SiblingNotActive(href: string, x: char, rest: string)
    requires x != '/'
    ensures !Active(href + [x] + rest, href)
  {
    var p := href + [x] + rest;
    assert p[|href|] == x;
    assert |p| > |href|;
  }

  /** No href, once '/' is appended, is a prefix of another href, and no two hrefs coincide. */
  ghost predicate Unnested(hrefs: seq<string>)
  {
    forall i, j :: 0 <= i < |hrefs| && 0 <= j < |hrefs| && i != j ==>
      hrefs[i] != hrefs[j] && !(hrefs[i] + "/" <= hrefs[j])
  }

  /** Two hrefs active for the same path are equal, or one of them with '/' appended is a prefix of the other. */
  lemma BothActive(a: string, b: string, pathname: string)
    requires Active(pathname, a) && Active(pathname, b)
    ensures a == b || a + "/" <= b || b + "/" <= a
  {
    if pathname != a && pathname != b {
      if |a| < |b| {
        assert b[|a|] == pathname[|a|];
        assert (a + "/")[|a|] == '/';
        assert a + "/" <= b;
      } else if |b| < |a| {
        assert a[|b|] == pathname[|b|];
        assert (b + "/")[|b|] == '/';
        assert b + "/" <= a;
      } else {
        assert a == (a + "/")[..|a|] == pathname[..|a|];
        assert b == (b + "/")[..|b|] == pathname[..|b|];
      }
    }
  }

  /** For an unnested list of hrefs at most one is active for any path. */
  lemma AtMostOneActive(hrefs: seq<string>, pathname: string)
    requires Unnested(hrefs)
    ensures forall i, j :: 0 <= i < |hrefs| && 0 <= j < |hrefs| && Active(pathname, hrefs[i]) && Active(pathname, hrefs[j]) ==> i == j
  {
    forall i, j | 0 <= i < |hrefs| && 0 <= j < |hrefs| && Active(pathname, hrefs[i]) && Active(pathname, hrefs[j])
      ensures i == j
    {
      BothActive(hrefs[i], hrefs[j], pathname);
    }
  }

  /** The sidebar's own hrefs are unnested. */
  lemma NavUnnested()
    ensures Unnested(seq(|Nav|, k requires 0 <= k < |Nav| => Nav[k].href))
  {
    var hrefs := seq(|Nav|, k requires 0 <= k < |Nav| => Nav[k].href);
    forall i, j | 0 <= i < |hrefs| && 0 <= j < |hrefs| && i != j
      ensures hrefs[i] != hrefs[j] && !(hrefs[i] + "/" <= hrefs[j])
    {
      assert hrefs[i][11] != hrefs[j][11];
    }
  }
}
