/** The string utilities of `src/utils/common.ts`. */
module Common {
  import Strings

  /** The namespace of the user store module. */
  const UserModuleNamespace := "user"

  /** The glyph that marks one level of category depth (an em dash). */
  const Dash: char := '\U{2014}'

  /** `namespace(ns, name)`: the namespaced getter or action name `ns/name`, from which both parts can be read back. */
  function Namespace(ns: string, name: string): (r: string)
    ensures |r| == |ns| + 1 + |name|
    ensures r[..|ns|] == ns && r[|ns|] == '/' && r[|ns| + 1..] == name
  {
    ns + "/" + name
  }

  /** `userNamespace(name)`: `name` inside the user store. */
  function UserNamespace(name: string): (r: string)
    ensures |r| == 5 + |name| && r[..5] == "user/" && r[5..] == name
  {
    Namespace(UserModuleNamespace, name)
  }

  /** `generateNumberArray(n)`: `0, 1, …, n-1`; a negative length gives an empty array, as `Array.from` does. */
  function GenerateNumberArray(length: int): (r: seq<int>)
    ensures |r| == if length < 0 then 0 else length
    ensures forall i :: 0 <= i < |r| ==> r[i] == i
  {
    seq(if length < 0 then 0 else length, i => i)
  }

  /** `n` dash glyphs separated by single spaces. */
  function DashRun(n: nat): string
  {
    if n == 0 then "" else if n == 1 then [Dash] else [Dash] + " " + DashRun(n - 1)
  }

  function CountChar(s: string, c: char): nat
  {
    if s == [] then 0 else (if s[0] == c then 1 else 0) + CountChar(s[1..], c)
  }

  lemma {:induction false} CountCharConcat(a: string, b: string, c: char)
    ensures CountChar(a + b, c) == CountChar(a, c) + CountChar(b, c)
  {
    if a == [] {
      assert a + b == b;
    } else {
      assert (a + b)[1..] == a[1..] + b;
      CountCharConcat(a[1..], b, c);
    }
  }

  /** The run has `n` dashes, at the even positions, and spaces between them. */
  lemma {:induction false} DashRunShape(n: nat)
    ensures |DashRun(n)| == if n == 0 then 0 else 2 * n - 1
    ensures forall i :: 0 <= i < |DashRun(n)| ==> DashRun(n)[i] == if i % 2 == 0 then Dash else ' '
    ensures CountChar(DashRun(n), Dash) == n
  {
    if n > 1 {
      DashRunShape(n - 1);
      var rest := DashRun(n - 1);
      assert DashRun(n) == [Dash, ' '] + rest;
      CountCharConcat([Dash, ' '], rest, Dash);
      assert CountChar([Dash, ' '], Dash) == 1 by {
        assert [Dash, ' '][1..] == [' '];
        assert [' '][1..] == [];
      }
    } else if n == 1 {
      assert DashRun(1)[1..] == [];
    }
  }

  /** The run is what joining `n` one-dash pieces with a space gives. */
  lemma {:induction false} DashRunIsJoin(n: nat)
    ensures DashRun(n) == Strings.Join(seq(n, _ => [Dash]), " ")
  {
    if n > 1 {
      DashRunIsJoin(n - 1);
      assert seq(n, _ => [Dash])[1..] == seq(n - 1, _ => [Dash]);
    }
  }

  /**
   * `getNameWithDepth(name, depth)`: `depth` dash glyphs joined by spaces, one more space, then the name.
   * The result ends with the name, and the prefix before it holds exactly `depth` dashes.
   */
  function NameWithDepth(name: string, depth: int): (r: string)
    ensures var d := if depth < 0 then 0 else depth;
      && |r| == (if d == 0 then 0 else 2 * d - 1) + 1 + |name|
      && r[|r| - |name|..] == name
      && r[|r| - |name| - 1] == ' '
      && CountChar(r[..|r| - |name|], Dash) == d
  {
    var pieces := GenerateNumberArray(depth);
    var r := Strings.Join(seq(|pieces|, _ => [Dash]), " ") + " " + name;
    DashRunIsJoin(|pieces|);
    DashRunShape(|pieces|);
    assert r[..|r| - |name|] == DashRun(|pieces|) + " ";
    CountCharConcat(DashRun(|pieces|), " ", Dash);
    assert CountChar(" ", Dash) == 0 by { assert " "[1..] == ""; }
    r
  }
}
