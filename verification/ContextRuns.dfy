/** How contexts and versions travel from task to task. */
module ContextRuns {
  import opened ContextKeys
  import opened ContextMerge
  import opened Wrappers

  // ---------- recording what a task published ----------

  function PublishedKeys(v: Value, prefix: string, hash: string -> string): set<string>
    decreases v
  {
    if v.Leaf? then {hash(prefix)}
    else set k, key | k in v.entries && key in PublishedKeys(v.entries[k], Extend(prefix, k), hash) :: key
  }

  lemma PublishedBelow(v: Value, prefix: string, hash: string -> string, key: string)
    requires v.Dict?
    ensures key in PublishedKeys(v, prefix, hash) <==>
            exists k :: k in v.entries && key in PublishedKeys(v.entries[k], Extend(prefix, k), hash)
  {
  }

  lemma LeafBelow(v: Value, k: string, rest: Path)
    requires v.Dict? && k in v.entries
    ensures LeafAt(v, [k] + rest) == LeafAt(v.entries[k], rest)
  {
    assert ([k] + rest)[1..] == rest;
  }

  /** A leaf of v that is published under the given key. */
  ghost predicate PublishedAt(v: Value, at: Path, hash: string -> string, key: string, q: Path) {
    LeafAt(v, q).Some? && key == hash(KeyOf(at + q))
  }

  lemma PublishedAtChild(v: Value, at: Path, hash: string -> string, key: string, k: string, rest: Path)
    requires v.Dict? && k in v.entries
    ensures PublishedAt(v.entries[k], at + [k], hash, key, rest) <==> PublishedAt(v, at, hash, key, [k] + rest)
  {
    LeafBelow(v, k, rest);
    assert at + [k] + rest == at + ([k] + rest);
  }

  /** The keys of a published tree are those of the paths to its leaves. */
  lemma {:induction false} KeyHasPath(v: Value, at: Path, hash: string -> string, key: string) returns (q: Path)
    requires key in PublishedKeys(v, KeyOf(at), hash)
    ensures PublishedAt(v, at, hash, key, q)
    decreases v
  {
    if v.Leaf? {
      q := [];
      assert at + q == at;
    } else {
      PublishedBelow(v, KeyOf(at), hash, key);
      var k :| k in v.entries && key in PublishedKeys(v.entries[k], Extend(KeyOf(at), k), hash);
      KeyOfChild(at, k);
      var rest := KeyHasPath(v.entries[k], at + [k], hash, key);
      PublishedAtChild(v, at, hash, key, k, rest);
      q := [k] + rest;
    }
  }

  lemma {:induction false} PathHasKey(v: Value, at: Path, hash: string -> string, q: Path)
    requires LeafAt(v, q).Some?
    ensures hash(KeyOf(at + q)) in PublishedKeys(v, KeyOf(at), hash)
    decreases |q|
  {
    if q == [] {
      assert at + q == at;
    } else {
      var key, k := hash(KeyOf(at + q)), q[0];
      KeyOfChild(at, k);
      assert at + [k] + q[1..] == at + q;
      PathHasKey(v.entries[k], at + [k], hash, q[1..]);
      PublishedBelow(v, KeyOf(at), hash, key);
    }
  }

  ghost predicate Distinct(s: seq<string>) {
    forall i, j :: 0 <= i < j < |s| ==> s[i] != s[j]
  }

  lemma DistinctConcat(a: seq<string>, b: seq<string>)
    requires Distinct(a) && Distinct(b) && forall x :: x in a ==> x !in b
    ensures Distinct(a + b)
  {
    var s := a + b;
    forall i, j | 0 <= i < j < |s|
      ensures s[i] != s[j]
    {
      assert i < |a| ==> s[i] in a;
      assert j >= |a| ==> s[j] == b[j - |a|] && s[j] in b;
    }
  }

  /** All names on the way to leaves are proper names. */
  lemma {:induction false} LeafPathHasNames(v: Value, q: Path)
    requires HasNames(v) && LeafAt(v, q).Some?
    ensures forall k :: k in q ==> IsName(k)
    decreases |q|
  {
    if q == [] {
    } else {
      LeafPathHasNames(v.entries[q[0]], q[1..]);
      assert q == [q[0]] + q[1..];
    }
  }

  /** Different entries of one dictionary publish different keys. */
  lemma EntriesAreApart(v: Value, at: Path, a: string, b: string, hash: string -> string, key: string)
    requires v.Dict? && HasNames(v) && Injective(hash) && (forall k :: k in at ==> IsName(k))
    requires a in v.entries && b in v.entries && a != b
    requires key in PublishedKeys(v.entries[a], Extend(KeyOf(at), a), hash)
    ensures key !in PublishedKeys(v.entries[b], Extend(KeyOf(at), b), hash)
  {
    KeyOfChild(at, a);
    KeyOfChild(at, b);
    var q := KeyHasPath(v.entries[a], at + [a], hash, key);
    LeafPathHasNames(v.entries[a], q);
    if key in PublishedKeys(v.entries[b], Extend(KeyOf(at), b), hash) {
      var r := KeyHasPath(v.entries[b], at + [b], hash, key);
      LeafPathHasNames(v.entries[b], r);
      assert (at + [a] + q)[|at|] == a && (at + [b] + r)[|at|] == b;
      HashedKeysAreDistinct(hash, at + [a] + q, at + [b] + r);
    }
  }

  /** The keys published below the entries `among` of a dictionary. */
  ghost function KeysBelow(v: Value, among: set<string>, prefix: string, hash: string -> string): set<string>
    requires v.Dict?
  {
    set k, key | k in among && k in v.entries && key in PublishedKeys(v.entries[k], Extend(prefix, k), hash) :: key
  }

  lemma OneMoreEntry(v: Value, done: set<string>, k: string, prefix: string, hash: string -> string)
    requires v.Dict? && k in v.entries
    ensures KeysBelow(v, done + {k}, prefix, hash) ==
            KeysBelow(v, done, prefix, hash) + PublishedKeys(v.entries[k], Extend(prefix, k), hash)
  {
  }

  ghost predicate Tidy(v: Value, at: Path, hash: string -> string) {
    Injective(hash) && HasNames(v) && forall k :: k in at ==> IsName(k)
  }

  lemma TidyBelow(v: Value, at: Path, k: string, hash: string -> string)
    requires v.Dict? && k in v.entries && Tidy(v, at, hash)
    ensures Tidy(v.entries[k], at + [k], hash)
  {
  }

  lemma OneMoreIsDistinct(v: Value, at: Path, done: set<string>, k: string, hash: string -> string,
                          added: seq<string>, more: seq<string>)
    requires v.Dict? && k in v.entries && k !in done && Tidy(v, at, hash)
    requires Distinct(added) && Elements(added) == KeysBelow(v, done, KeyOf(at), hash)
    requires Distinct(more) && Elements(more) == PublishedKeys(v.entries[k], Extend(KeyOf(at), k), hash)
    ensures Distinct(added + more)
  {
    forall key | key in added
      ensures key !in more
    {
      assert key in Elements(added);
      var other :| other in done && other in v.entries &&
                   key in PublishedKeys(v.entries[other], Extend(KeyOf(at), other), hash);
      EntriesAreApart(v, at, other, k, hash, key);
      assert key !in Elements(more);
    }
    DistinctConcat(added, more);
  }

  lemma OneMoreEntryAdded(v: Value, at: Path, done: set<string>, k: string, hash: string -> string,
                          added: seq<string>, more: seq<string>)
    requires v.Dict? && k in v.entries && k !in done
    requires Elements(added) == KeysBelow(v, done, KeyOf(at), hash)
    requires Elements(more) == PublishedKeys(v.entries[k], Extend(KeyOf(at), k), hash)
    requires Tidy(v, at, hash) ==> Distinct(added)
    requires Tidy(v.entries[k], at + [k], hash) ==> Distinct(more)
    ensures Elements(added + more) == KeysBelow(v, done + {k}, KeyOf(at), hash)
    ensures Tidy(v, at, hash) ==> Distinct(added + more)
  {
    assert Elements(added + more) == Elements(added) + Elements(more);
    OneMoreEntry(v, done, k, KeyOf(at), hash);
    if Tidy(v, at, hash) {
      TidyBelow(v, at, k, hash);
      OneMoreIsDistinct(v, at, done, k, hash, added, more);
    }
  }

  /** The engine's recursion: the keys of all leaves are appended to the list passed in. */
  method GetPublishedKeys(updated: seq<string>, published: Value, prefix: string, hash: string -> string,
                          ghost at: Path)
    returns (keys: seq<string>)
    requires published.Dict? && prefix == KeyOf(at)
    ensures |updated| <= |keys| && keys[..|updated|] == updated
    ensures Elements(keys[|updated|..]) == PublishedKeys(published, prefix, hash)
    ensures Tidy(published, at, hash) ==> Distinct(keys[|updated|..])
    decreases published
  {
    keys := updated;
    ghost var added: seq<string> := [];
    ghost var done: set<string> := {};
    var todo := published.entries.Keys;
    while todo != {}
      invariant done !! todo && done + todo == published.entries.Keys && keys == updated + added
      invariant Elements(added) == KeysBelow(published, done, prefix, hash)
      invariant Tidy(published, at, hash) ==> Distinct(added)
      decreases todo
    {
      var k :| k in todo;
      todo := todo - {k};
      var newPrefix := Extend(prefix, k);
      KeyOfChild(at, k);
      var v := published.entries[k];
      ghost var before := keys;
      if v.Dict? {
        keys := GetPublishedKeys(keys, v, newPrefix, hash, at + [k]);
      } else {
        keys := keys + [hash(newPrefix)];
      }
      ghost var more := keys[|before|..];
      OneMoreEntryAdded(published, at, done, k, hash, added, more);
      done := done + {k};
      added := added + more;
    }
    assert keys[|updated|..] == added;
  }

  function Bump(versions: Versions, keys: set<string>): Versions {
    map key | key in versions.Keys + keys :: VersionOf(key, versions) + if key in keys then 1 else 0
  }

  function Increment(versions: Versions, key: string): Versions {
    versions[key := VersionOf(key, versions) + 1]
  }

  function IncrementEach(versions: Versions, keys: seq<string>): Versions {
    if keys == [] then versions else Increment(IncrementEach(versions, keys[..|keys| - 1]), keys[|keys| - 1])
  }

  method IncrementAll(versions: Versions, keys: seq<string>) returns (out: Versions)
    ensures out == IncrementEach(versions, keys)
  {
    out := versions;
    for i := 0 to |keys|
      invariant out == IncrementEach(versions, keys[..i])
    {
      assert keys[..i + 1][..i] == keys[..i];
      if keys[i] !in out {
        out := out[keys[i] := 0];
      }
      out := out[keys[i] := out[keys[i]] + 1];
    }
    assert keys[..|keys|] == keys;
  }

  /** Keys that are all different are incremented once each. */
  lemma {:induction false} DistinctKeysBump(versions: Versions, keys: seq<string>)
    requires Distinct(keys)
    ensures IncrementEach(versions, keys) == Bump(versions, Elements(keys))
  {
    if keys == [] {
    } else {
      var front, key := keys[..|keys| - 1], keys[|keys| - 1];
      DistinctKeysBump(versions, front);
      BumpOneMore(versions, front, key);
      assert keys == front + [key];
    }
  }

  /** The context a finished task passes on, before its published variables are laid over it. */
  method GetInContextWithVersions(ctx: Context, published: Value, hash: string -> string) returns (out: Context)
    requires published.Dict?
    ensures out.vars == ctx.vars
    ensures Injective(hash) && HasNames(published) ==>
              out.versions == Bump(ctx.versions, PublishedKeys(published, "", hash))
  {
    var keys := GetPublishedKeys([], published, "", hash, []);
    assert keys[0..] == keys;
    if Injective(hash) && HasNames(published) {
      DistinctKeysBump(ctx.versions, keys);
    }
    var versions := IncrementAll(ctx.versions, keys);
    out := Context(ctx.vars, versions);
  }

  function Elements(s: seq<string>): set<string> {
    set x | x in s
  }

  lemma BumpOneMore(versions: Versions, keys: seq<string>, key: string)
    requires key !in keys
    ensures Bump(versions, Elements(keys + [key])) == Increment(Bump(versions, Elements(keys)), key)
  {
    assert Elements(keys + [key]) == Elements(keys) + {key};
  }

  // ---------- the outbound context ----------

  /** Published variables laid over a context, deeply, as the "merge" strategy does. */
  function Overlay(l: Value, r: Value): (m: Value)
    ensures r.Dict? ==> m.Dict?
    decreases r
  {
    if l.Leaf? || r.Leaf? then r
    else Dict(map k | k in l.entries.Keys + r.entries.Keys ::
                if k !in r.entries then l.entries[k]
                else if k !in l.entries then r.entries[k]
                else Overlay(l.entries[k], r.entries[k]))
  }

  lemma {:induction false} OverlaidLeaf(l: Value, r: Value, p: Path, shape: Value)
    requires Conforms(l, shape) && Conforms(r, shape)
    ensures LeafAt(Overlay(l, r), p) == if LeafAt(r, p).Some? then LeafAt(r, p) else LeafAt(l, p)
    decreases |p|
  {
    if p != [] && l.Dict? && p[0] in l.entries && p[0] in r.entries {
      OverlaidLeaf(l.entries[p[0]], r.entries[p[0]], p[1..], shape.entries[p[0]]);
    }
  }

  lemma {:induction false} OverlaidConforms(l: Value, r: Value, shape: Value)
    requires Conforms(l, shape) && Conforms(r, shape)
    ensures Conforms(Overlay(l, r), shape)
    decreases r
  {
    if l.Dict? {
      var m := Overlay(l, r);
      forall k | k in m.entries
        ensures k in shape.entries && Conforms(m.entries[k], shape.entries[k])
      {
        if k in l.entries && k in r.entries {
          OverlaidConforms(l.entries[k], r.entries[k], shape.entries[k]);
        } else if k in l.entries {
          assert m.entries[k] == l.entries[k];
        } else {
          assert m.entries[k] == r.entries[k];
        }
      }
    }
  }

  function Outbound(c: Context, published: Value, hash: string -> string): Context {
    Context(Overlay(c.vars, published), Bump(c.versions, PublishedKeys(published, "", hash)))
  }

  ghost predicate IsPublished(published: Value, shape: Value) {
    published.Dict? && IsShape(shape) && Conforms(published, shape)
  }

  lemma {:induction false} ConformsHasNames(v: Value, shape: Value)
    requires Conforms(v, shape) && HasNames(shape)
    ensures HasNames(v)
    decreases v
  {
    if v.Dict? {
      forall k | k in v.entries
        ensures IsName(k) && HasNames(v.entries[k])
      {
        ConformsHasNames(v.entries[k], shape.entries[k]);
      }
    }
  }

  /** A task raises the version of exactly the variables it published, by one, and gives them their new values. */
  lemma OutboundVariable(c: Context, published: Value, shape: Value, hash: string -> string, p: Path)
    requires Good(c, shape, hash) && IsPublished(published, shape) && Injective(hash) && IsVariable(p)
    ensures var out := Outbound(c, published, hash);
            if LeafAt(published, p).Some?
            then Get(out, p) == LeafAt(published, p) && Version(out, p, hash) == Version(c, p, hash) + 1
            else Get(out, p) == Get(c, p) && Version(out, p, hash) == Version(c, p, hash)
  {
    OverlaidLeaf(c.vars, published, p, shape);
    assert KeyOf([]) == "" && [] + p == p;
    if LeafAt(published, p).Some? {
      PathHasKey(published, [], hash, p);
    } else if hash(KeyOf(p)) in PublishedKeys(published, "", hash) {
      var q := KeyHasPath(published, [], hash, hash(KeyOf(p)));
      assert [] + q == q;
      ConformsHasNames(published, shape);
      LeafPathHasNames(published, q);
      HashedKeysAreDistinct(hash, p, q);
    }
  }

  lemma OutboundIsGood(c: Context, published: Value, shape: Value, hash: string -> string)
    requires Good(c, shape, hash) && IsPublished(published, shape) && Injective(hash)
    ensures Good(Outbound(c, published, hash), shape, hash)
  {
    var out := Outbound(c, published, hash);
    OverlaidConforms(c.vars, published, shape);
    forall p | IsVariable(p) && LeafAt(out.vars, p).None?
      ensures VersionOf(hash(KeyOf(p)), out.versions) == 0
    {
      OutboundVariable(c, published, shape, hash, p);
    }
  }

  // ---------- histories ----------

  /** How a task came to its context: started with one, or triggered by other tasks; and what it published. */
  datatype History =
    | Origin(vars: map<string, Value>, versions: Versions)
    | Task(upstream: seq<History>, published: map<string, Value>)

  /** The context a task execution passes on. */
  function Out(h: History, hash: string -> string): (c: Context)
    ensures c.vars.Dict?
    decreases h
  {
    match h
    case Origin(vars, versions) => Context(Dict(vars), versions)
    case Task(upstream, published) => Outbound(Inbound(upstream, hash), Dict(published), hash)
  }

  function Inbound(hs: seq<History>, hash: string -> string): (c: Context)
    ensures c.vars.Dict?
    decreases hs, 1
  {
    if hs == [] then EMPTY else Upstream(Outs(hs, hash), None, hash)
  }

  function Outs(hs: seq<History>, hash: string -> string): (cs: seq<Context>)
    ensures |cs| == |hs| && (forall c :: c in cs ==> c.vars.Dict?)
    ensures forall i :: 0 <= i < |hs| ==> cs[i] == Out(hs[i], hash)
    decreases hs, 0
  {
    seq(|hs|, i requires 0 <= i < |hs| => Out(hs[i], hash))
  }

  ghost predicate Sound(h: History, shape: Value, hash: string -> string)
    decreases h
  {
    match h
    case Origin(vars, versions) => Good(Context(Dict(vars), versions), shape, hash)
    case Task(upstream, published) =>
      IsPublished(Dict(published), shape) && forall u :: u in upstream ==> Sound(u, shape, hash)
  }

  ghost predicate AllSound(hs: seq<History>, shape: Value, hash: string -> string) {
    forall h :: h in hs ==> Sound(h, shape, hash)
  }

  /** The task published variable p. */
  predicate Publishes(h: History, p: Path) {
    h.Task? && LeafAt(Dict(h.published), p).Some?
  }

  lemma {:induction false} OutIsGood(h: History, shape: Value, hash: string -> string)
    requires Sound(h, shape, hash) && Injective(hash)
    ensures Good(Out(h, hash), shape, hash)
    decreases h
  {
    if h.Task? {
      InboundIsGood(h.upstream, shape, hash);
      OutboundIsGood(Inbound(h.upstream, hash), Dict(h.published), shape, hash);
    }
  }

  lemma {:induction false} OutsAreGood(hs: seq<History>, shape: Value, hash: string -> string)
    requires AllSound(hs, shape, hash) && Injective(hash)
    ensures AllGood(Outs(hs, hash), shape, hash)
    decreases hs, 0
  {
    forall c | c in Outs(hs, hash)
      ensures Good(c, shape, hash)
    {
      var i :| 0 <= i < |hs| && c == Out(hs[i], hash);
      OutIsGood(hs[i], shape, hash);
    }
  }

  lemma {:induction false} InboundIsGood(hs: seq<History>, shape: Value, hash: string -> string)
    requires AllSound(hs, shape, hash) && Injective(hash) && IsShape(shape)
    ensures Good(Inbound(hs, hash), shape, hash)
    decreases hs, 1
  {
    if hs == [] {
    } else {
      var cs := Outs(hs, hash);
      OutsAreGood(hs, shape, hash);
      MergedAllIsGood(cs[|cs| - 1], cs[..|cs| - 1], shape, hash);
    }
  }

  // ---------- main results ----------

  /** Along a trigger a variable's version never falls, and it rises at a task that publishes the variable. */
  lemma VersionsGrow(h: History, u: History, shape: Value, hash: string -> string, p: Path)
    requires h.Task? && u in h.upstream && Sound(h, shape, hash) && Injective(hash) && IsVariable(p)
    ensures Version(Out(h, hash), p, hash) >= Version(Out(u, hash), p, hash) + if Publishes(h, p) then 1 else 0
  {
    var cs := Outs(h.upstream, hash);
    OutsAreGood(h.upstream, shape, hash);
    InboundIsGood(h.upstream, shape, hash);
    MergedUpstream(cs, shape, hash, p);
    OutboundVariable(Inbound(h.upstream, hash), Dict(h.published), shape, hash, p);
    var i :| 0 <= i < |h.upstream| && h.upstream[i] == u;
    assert cs[i] in cs;
  }

  /** A chain of triggers leads from f to h, with at least n tasks after f that publish p. */
  ghost predicate Republished(f: History, h: History, p: Path, n: nat)
    decreases h
  {
    (n == 0 && h == f) ||
    (h.Task? && exists u :: u in h.upstream && Republished(f, u, p, if Publishes(h, p) && n > 0 then n - 1 else n))
  }

  /** Every chain into h passes f, and no task after f publishes p. */
  ghost predicate Inherited(f: History, h: History, p: Path)
    decreases h
  {
    h == f || (h.Task? && h.upstream != [] && !Publishes(h, p) && forall u :: u in h.upstream ==> Inherited(f, u, p))
  }

  lemma {:induction false} RepublishingRaises(f: History, h: History, shape: Value, hash: string -> string, p: Path,
                                              n: nat)
    requires Republished(f, h, p, n) && Sound(h, shape, hash) && Injective(hash) && IsVariable(p)
    ensures Version(Out(h, hash), p, hash) >= Version(Out(f, hash), p, hash) + n
    decreases h
  {
    if !(n == 0 && h == f) {
      var m := if Publishes(h, p) && n > 0 then n - 1 else n;
      var u :| u in h.upstream && Republished(f, u, p, m);
      RepublishingRaises(f, u, shape, hash, p, m);
      VersionsGrow(h, u, shape, hash, p);
    }
  }

  lemma {:induction false} InheritingKeeps(f: History, h: History, shape: Value, hash: string -> string, p: Path)
    requires Inherited(f, h, p) && Sound(h, shape, hash) && Injective(hash) && IsVariable(p)
    ensures Version(Out(h, hash), p, hash) == Version(Out(f, hash), p, hash)
    ensures Get(Out(h, hash), p) == Get(Out(f, hash), p)
    decreases h
  {
    if h != f {
      var cs := Outs(h.upstream, hash);
      OutsAreGood(h.upstream, shape, hash);
      InboundIsGood(h.upstream, shape, hash);
      MergedUpstream(cs, shape, hash, p);
      OutboundVariable(Inbound(h.upstream, hash), Dict(h.published), shape, hash, p);
      forall c | c in cs
        ensures Version(c, p, hash) == Version(Out(f, hash), p, hash) && Get(c, p) == Get(Out(f, hash), p)
      {
        var i :| 0 <= i < |cs| && cs[i] == c;
        InheritingKeeps(f, h.upstream[i], shape, hash, p);
      }
    }
  }

  /**
   A republished variable beats an inherited one: when branches that fork at f
   join, in whatever order they are merged, the value comes from a branch that
   republished the variable, never from one that only inherited it.
   */
  lemma RepublishedBeatsInherited(f: History, hs: seq<History>, shape: Value, hash: string -> string, p: Path,
                                  r: History)
    requires AllSound(hs, shape, hash) && Injective(hash) && IsVariable(p)
    requires forall h :: h in hs ==> Inherited(f, h, p) || Republished(f, h, p, 1)
    requires r in hs && Republished(f, r, p, 1)
    ensures exists h :: h in hs && Republished(f, h, p, 1) && Get(Out(h, hash), p).Some? &&
                        Get(Inbound(hs, hash), p) == Get(Out(h, hash), p)
  {
    var h := InboundComesFrom(hs, shape, hash, p);
    RepublishingRaises(f, r, shape, hash, p, 1);
    if Inherited(f, h, p) {
      InheritingKeeps(f, h, shape, hash, p);
    }
    OutIsGood(h, shape, hash);
  }

  /** Some branch has the value the join sees, at a version no other branch exceeds. */
  lemma InboundComesFrom(hs: seq<History>, shape: Value, hash: string -> string, p: Path) returns (h: History)
    requires hs != [] && AllSound(hs, shape, hash) && Injective(hash) && IsVariable(p)
    ensures h in hs && Get(Inbound(hs, hash), p) == Get(Out(h, hash), p)
    ensures forall r :: r in hs ==> Version(Out(r, hash), p, hash) <= Version(Out(h, hash), p, hash)
  {
    var cs, m := Outs(hs, hash), Inbound(hs, hash);
    OutsAreGood(hs, shape, hash);
    MergedUpstream(cs, shape, hash, p);
    var c :| c in cs && Version(c, p, hash) == Version(m, p, hash) && Get(c, p) == Get(m, p);
    var k :| 0 <= k < |cs| && cs[k] == c;
    h := hs[k];
    forall r | r in hs
      ensures Version(Out(r, hash), p, hash) <= Version(Out(h, hash), p, hash)
    {
      var i :| 0 <= i < |hs| && hs[i] == r;
      assert cs[i] in cs;
    }
  }
}
