/** The dotted keys under which versions of context variables are recorded. */
module ContextKeys {

  type Path = seq<string>

  /** How the engine extends a key while it walks down nested dictionaries. */
  function Extend(prefix: string, k: string): string {
    if prefix == "" then k else prefix + "." + k
  }

  function KeyOf(p: Path): string {
    if p == [] then "" else Extend(KeyOf(p[..|p| - 1]), p[|p| - 1])
  }

  /** Names that keep the dotted keys unambiguous: not empty, and without dots. */
  predicate IsName(k: string) {
    k != "" && '.' !in k
  }

  predicate IsVariable(p: Path) {
    p != [] && forall k :: k in p ==> IsName(k)
  }

  lemma {:induction false} KeyIsNotEmpty(p: Path)
    requires IsVariable(p)
    ensures KeyOf(p) != ""
  {
    assert p[|p| - 1] in p;
  }

  /** A string splits in one way only at its last dot. */
  lemma LastDot(a: string, x: string, b: string, y: string)
    requires '.' !in x && '.' !in y && a + "." + x == b + "." + y
    ensures a == b && x == y
  {
    var s := a + "." + x;
    assert s[|a|] == '.' && s[|b|] == '.';
    assert a == s[..|a|] && b == s[..|b|];
    assert x == s[|a| + 1..] && y == s[|b| + 1..];
  }

  lemma SingleHasNoDot(p: Path, q: Path)
    requires IsVariable(p) && IsVariable(q) && |p| == 1 && |q| > 1
    ensures KeyOf(p) != KeyOf(q)
  {
    assert p[0] in p;
    assert KeyOf(p[..0]) == "" && KeyOf(p) == p[0];
    var front := q[..|q| - 1];
    assert forall k :: k in front ==> k in q;
    KeyIsNotEmpty(front);
    assert KeyOf(q)[|KeyOf(front)|] == '.';
  }

  /** Different variables have different keys. */
  lemma {:induction false} KeysAreDistinct(p: Path, q: Path)
    requires IsVariable(p) && IsVariable(q) && KeyOf(p) == KeyOf(q)
    ensures p == q
    decreases |p|
  {
    if |p| == 1 && |q| == 1 {
      assert KeyOf(p[..0]) == "" && KeyOf(q[..0]) == "";
    } else if |p| == 1 {
      SingleHasNoDot(p, q);
    } else if |q| == 1 {
      SingleHasNoDot(q, p);
    } else {
      var a, b := p[..|p| - 1], q[..|q| - 1];
      assert (forall k :: k in a ==> k in p) && (forall k :: k in b ==> k in q);
      assert p[|p| - 1] in p && q[|q| - 1] in q;
      KeyIsNotEmpty(a);
      KeyIsNotEmpty(b);
      LastDot(KeyOf(a), p[|p| - 1], KeyOf(b), q[|q| - 1]);
      KeysAreDistinct(a, b);
      assert p == a + [p[|p| - 1]] && q == b + [q[|q| - 1]];
    }
  }

  lemma KeyOfTwo(a: string, b: string)
    requires a != ""
    ensures KeyOf([a, b]) == a + "." + b
  {
    assert [a, b][..1] == [a] && [a][..0] == [];
    assert KeyOf([a]) == a;
  }

  lemma KeyOfThree(a: string, b: string, c: string)
    requires a != ""
    ensures KeyOf([a, b, c]) == a + "." + b + "." + c
  {
    assert [a, b, c][..2] == [a, b];
    KeyOfTwo(a, b);
  }

  /**
   Every other name breaks this, even if the rest are proper names: a variable
   whose path has it shares its version with one whose path is made of proper
   names and of the pieces of that name.
   */
  lemma OtherNamesClash(k: string) returns (p: Path, q: Path)
    requires !IsName(k)
    ensures p != [] && q != [] && k in p && k !in q && KeyOf(p) == KeyOf(q)
    ensures forall n :: n in p ==> n == k || IsName(n)
    ensures forall n :: n in q ==> IsName(n) || |n| < |k|
  {
    if k == "" {
      p, q := ["", "a"], ["a"];
      assert p[..1] == [""] && [""][..0] == [] && q[..0] == [];
      assert KeyOf([""]) == "";
    } else {
      var i :| 0 <= i < |k| && k[i] == '.';
      var x, y := k[..i], k[i + 1..];
      p, q := ["a", k], ["a", x, y];
      KeyOfTwo("a", k);
      KeyOfThree("a", x, y);
      assert k == x + "." + y;
      assert "a" + "." + k == "a" + "." + x + "." + y;
    }
  }

  /** The option to record versions under hashed keys; the hash is taken to be injective. */
  ghost predicate Injective(hash: string -> string) {
    forall a, b :: hash(a) == hash(b) ==> a == b
  }

  lemma HashedKeysAreDistinct(hash: string -> string, p: Path, q: Path)
    requires Injective(hash) && IsVariable(p) && IsVariable(q) && hash(KeyOf(p)) == hash(KeyOf(q))
    ensures p == q
  {
    KeysAreDistinct(p, q);
  }
}
