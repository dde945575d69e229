/** Merging task contexts whose variables carry versions. */
module ContextMerge {
  import opened ContextKeys
  import opened Wrappers

  type Data = string

  /** A context is a tree of dictionaries. */
  datatype Value = Leaf(data: Data) | Dict(entries: map<string, Value>)

  /** Versions by (possibly hashed) key; a key that is not recorded has version 0. */
  type Versions = map<string, nat>

  function VersionOf(key: string, versions: Versions): nat {
    if key in versions then versions[key] else 0
  }

  function LeafAt(v: Value, p: Path): Option<Data> {
    if p == [] then if v.Leaf? then Some(v.data) else None
    else if v.Dict? && p[0] in v.entries then LeafAt(v.entries[p[0]], p[1..]) else None
  }

  // ---------- the recursive merge ----------

  /** The entry of the merged dictionary for a key that both sides have. */
  function MergeValue(l: Value, vl: Versions, r: Value, vr: Versions, key: string, hash: string -> string): Value
    decreases l, 1
  {
    if l.Dict? && r.Dict? then MergeDict(l, vl, r, vr, key, hash)
    else if VersionOf(hash(key), vr) > VersionOf(hash(key), vl) then r
    else l
  }

  function MergeDict(l: Value, vl: Versions, r: Value, vr: Versions, prefix: string, hash: string -> string): (m: Value)
    requires l.Dict? && r.Dict?
    ensures m.Dict?
    decreases l, 0
  {
    Dict(map k | k in l.entries.Keys + r.entries.Keys ::
           if k !in r.entries then l.entries[k]
           else if k !in l.entries then r.entries[k]
           else MergeValue(l.entries[k], vl, r.entries[k], vr, Extend(prefix, k), hash))
  }

  /** The engine's loop: entries of the right side are worked into the left side one by one. */
  method MergeCtx(l: Value, vl: Versions, r: Value, vr: Versions, prefix: string, hash: string -> string)
    returns (m: Value)
    requires l.Dict? && r.Dict?
    ensures m == MergeDict(l, vl, r, vr, prefix, hash)
    decreases l
  {
    ghost var goal := MergeDict(l, vl, r, vr, prefix, hash);
    var left := l.entries;
    var todo := r.entries.Keys;
    while todo != {}
      invariant todo <= r.entries.Keys
      invariant left.Keys == l.entries.Keys + (r.entries.Keys - todo)
      invariant forall k :: k in left ==>
                  left[k] == if k in todo then l.entries[k] else goal.entries[k]
      decreases todo
    {
      var k :| k in todo;
      todo := todo - {k};
      var v := r.entries[k];
      if k !in left {
        left := left[k := v];
      } else {
        var leftV := left[k];
        var newPrefix := Extend(prefix, k);
        assert goal.entries[k] == MergeValue(l.entries[k], vl, v, vr, newPrefix, hash);
        if leftV.Dict? && v.Dict? {
          var merged := MergeCtx(leftV, vl, v, vr, newPrefix, hash);
          left := left[k := merged];
        } else if VersionOf(hash(newPrefix), vr) > VersionOf(hash(newPrefix), vl) {
          left := left[k := v];
        }
      }
    }
    m := Dict(left);
  }

  // ---------- what the merge means ----------

  /** v has dictionaries and leaves only where the shape has them. */
  ghost predicate Conforms(v: Value, shape: Value)
    decreases v
  {
    match v
    case Leaf(_) => shape.Leaf?
    case Dict(entries) =>
      shape.Dict? && forall k :: k in entries ==> k in shape.entries && Conforms(entries[k], shape.entries[k])
  }

  ghost predicate HasNames(shape: Value)
    decreases shape
  {
    shape.Dict? ==> forall k :: k in shape.entries ==> IsName(k) && HasNames(shape.entries[k])
  }

  ghost predicate HasPath(v: Value, p: Path) {
    p == [] || (v.Dict? && p[0] in v.entries && HasPath(v.entries[p[0]], p[1..]))
  }

  /** A leaf of one side stays; of two, the right one wins only with a strictly higher version. */
  function Pick(l: Option<Data>, r: Option<Data>, vl: nat, vr: nat): Option<Data> {
    if l.None? then r else if r.None? || vr <= vl then l else r
  }

  lemma KeyOfChild(at: Path, k: string)
    ensures KeyOf(at + [k]) == Extend(KeyOf(at), k)
  {
    assert (at + [k])[..|at|] == at;
  }

  /** Every leaf of the merged tree is the one the versions call for. */
  lemma {:induction false} MergedLeaf(l: Value, vl: Versions, r: Value, vr: Versions, at: Path, p: Path, shape: Value,
                                      hash: string -> string)
    requires l.Dict? && r.Dict? && Conforms(l, shape) && Conforms(r, shape) && p != []
    ensures LeafAt(MergeDict(l, vl, r, vr, KeyOf(at), hash), p) ==
            Pick(LeafAt(l, p), LeafAt(r, p), VersionOf(hash(KeyOf(at + p)), vl), VersionOf(hash(KeyOf(at + p)), vr))
    decreases |p|
  {
    var k, rest := p[0], p[1..];
    if k in l.entries && k in r.entries {
      KeyOfChild(at, k);
      assert at + [k] + rest == at + p;
      if l.entries[k].Dict? {
        if rest != [] {
          MergedLeaf(l.entries[k], vl, r.entries[k], vr, at + [k], rest, shape.entries[k], hash);
        }
      } else if rest == [] {
        assert at + [k] == at + p;
      }
    }
  }

  /** The merged tree has exactly the paths of the two sides. */
  lemma {:induction false} MergedPaths(l: Value, vl: Versions, r: Value, vr: Versions, prefix: string, p: Path,
                                       shape: Value, hash: string -> string)
    requires l.Dict? && r.Dict? && Conforms(l, shape) && Conforms(r, shape)
    ensures HasPath(MergeDict(l, vl, r, vr, prefix, hash), p) <==> HasPath(l, p) || HasPath(r, p)
    decreases |p|
  {
    if p != [] && p[0] in l.entries && p[0] in r.entries && l.entries[p[0]].Dict? {
      MergedPaths(l.entries[p[0]], vl, r.entries[p[0]], vr, Extend(prefix, p[0]), p[1..], shape.entries[p[0]], hash);
    }
  }

  lemma {:induction false} MergedConforms(l: Value, vl: Versions, r: Value, vr: Versions, prefix: string,
                                          shape: Value, hash: string -> string)
    requires l.Dict? && r.Dict? && Conforms(l, shape) && Conforms(r, shape)
    ensures Conforms(MergeDict(l, vl, r, vr, prefix, hash), shape)
    decreases l
  {
    var m := MergeDict(l, vl, r, vr, prefix, hash);
    forall k | k in m.entries
      ensures k in shape.entries && Conforms(m.entries[k], shape.entries[k])
    {
      if k !in r.entries {
        assert m.entries[k] == l.entries[k];
      } else if k !in l.entries {
        assert m.entries[k] == r.entries[k];
      } else {
        var lv, rv := l.entries[k], r.entries[k];
        assert m.entries[k] == MergeValue(lv, vl, rv, vr, Extend(prefix, k), hash);
        if lv.Dict? {
          MergedConforms(lv, vl, rv, vr, Extend(prefix, k), shape.entries[k], hash);
        }
      }
    }
  }

  // ---------- contexts with versions ----------

  datatype Context = Context(vars: Value, versions: Versions)

  const TASK_KEY := "__task_execution"

  /** Internal data does not take part in a merge. */
  function Strip(v: Value): (r: Value)
    requires v.Dict?
    ensures r.Dict?
  {
    Dict(v.entries - {TASK_KEY})
  }

  function MaxVersions(a: Versions, b: Versions): Versions {
    map k | k in a.Keys + b.Keys :: if VersionOf(k, a) >= VersionOf(k, b) then VersionOf(k, a) else VersionOf(k, b)
  }

  method MergeVersions(a: Versions, b: Versions) returns (m: Versions)
    ensures m == MaxVersions(a, b)
  {
    m := a;
    var todo := b.Keys;
    while todo != {}
      invariant todo <= b.Keys && m.Keys == a.Keys + (b.Keys - todo)
      invariant forall k :: k in m ==> m[k] == if k in todo then a[k] else MaxVersions(a, b)[k]
      decreases todo
    {
      var k :| k in todo;
      todo := todo - {k};
      if k !in m {
        m := m[k := b[k]];
      }
      m := m[k := if m[k] >= b[k] then m[k] else b[k]];
    }
  }

  /** Internal data of either side is not in the merged context, and nothing else is dropped. */
  lemma InternalIsDropped(a: Context, b: Context, hash: string -> string)
    requires a.vars.Dict? && b.vars.Dict?
    ensures var m := MergeContexts(a, b, hash).vars;
            m.Dict? && forall k :: k in m.entries <==> k != TASK_KEY && (k in a.vars.entries || k in b.vars.entries)
  {
  }

  function MergeContexts(a: Context, b: Context, hash: string -> string): Context
    requires a.vars.Dict? && b.vars.Dict?
  {
    Context(MergeDict(Strip(a.vars), a.versions, Strip(b.vars), b.versions, "", hash),
            MaxVersions(a.versions, b.versions))
  }

  method MergeContextByVersion(a: Context, b: Context, hash: string -> string) returns (m: Context)
    requires a.vars.Dict? && b.vars.Dict?
    ensures m == MergeContexts(a, b, hash)
  {
    var vars := MergeCtx(Strip(a.vars), a.versions, Strip(b.vars), b.versions, "", hash);
    var versions := MergeVersions(a.versions, b.versions);
    m := Context(vars, versions);
  }

  function Get(c: Context, p: Path): Option<Data> {
    LeafAt(c.vars, p)
  }

  function Version(c: Context, p: Path, hash: string -> string): nat {
    VersionOf(hash(KeyOf(p)), c.versions)
  }

  ghost predicate IsShape(shape: Value) {
    shape.Dict? && HasNames(shape) && TASK_KEY !in shape.entries
  }

  /** A context of the given shape that records versions only for variables it has. */
  ghost predicate Good(c: Context, shape: Value, hash: string -> string) {
    match c
    case Context(vars, versions) =>
      && vars.Dict? && IsShape(shape) && Conforms(vars, shape)
      && forall p :: IsVariable(p) && LeafAt(vars, p).None? ==> VersionOf(hash(KeyOf(p)), versions) == 0
  }

  /** Variable by variable: the merge keeps the newer value, and the higher version. */
  lemma MergedContext(a: Context, b: Context, shape: Value, hash: string -> string, p: Path)
    requires Good(a, shape, hash) && Good(b, shape, hash) && IsVariable(p)
    ensures var m := MergeContexts(a, b, hash);
            && Get(m, p) == Pick(Get(a, p), Get(b, p), Version(a, p, hash), Version(b, p, hash))
            && Version(m, p, hash) ==
               (if Version(a, p, hash) >= Version(b, p, hash) then Version(a, p, hash) else Version(b, p, hash))
  {
    assert Strip(a.vars) == a.vars && Strip(b.vars) == b.vars;
    assert KeyOf([]) == "" && [] + p == p;
    MergedLeaf(a.vars, a.versions, b.vars, b.versions, [], p, shape, hash);
  }

  lemma MergedIsGood(a: Context, b: Context, shape: Value, hash: string -> string)
    requires Good(a, shape, hash) && Good(b, shape, hash)
    ensures Good(MergeContexts(a, b, hash), shape, hash)
  {
    var m := MergeContexts(a, b, hash);
    assert Strip(a.vars) == a.vars && Strip(b.vars) == b.vars;
    MergedConforms(a.vars, a.versions, b.vars, b.versions, "", shape, hash);
    forall p | IsVariable(p) && Get(m, p).None?
      ensures Version(m, p, hash) == 0
    {
      MergedContext(a, b, shape, hash, p);
    }
  }

  ghost predicate SameContext(a: Context, b: Context, hash: string -> string) {
    forall p :: IsVariable(p) ==> Get(a, p) == Get(b, p) && Version(a, p, hash) == Version(b, p, hash)
  }

  /** Grouping does not matter. */
  lemma MergeIsAssociative(a: Context, b: Context, c: Context, shape: Value, hash: string -> string)
    requires Good(a, shape, hash) && Good(b, shape, hash) && Good(c, shape, hash)
    ensures Good(MergeContexts(a, b, hash), shape, hash) && Good(MergeContexts(b, c, hash), shape, hash)
    ensures SameContext(MergeContexts(MergeContexts(a, b, hash), c, hash),
                        MergeContexts(a, MergeContexts(b, c, hash), hash), hash)
  {
    MergedIsGood(a, b, shape, hash);
    MergedIsGood(b, c, shape, hash);
    forall p | IsVariable(p)
      ensures Get(MergeContexts(MergeContexts(a, b, hash), c, hash), p) ==
              Get(MergeContexts(a, MergeContexts(b, c, hash), hash), p)
      ensures Version(MergeContexts(MergeContexts(a, b, hash), c, hash), p, hash) ==
              Version(MergeContexts(a, MergeContexts(b, c, hash), hash), p, hash)
    {
      MergedContext(a, b, shape, hash, p);
      MergedContext(b, c, shape, hash, p);
      MergedContext(MergeContexts(a, b, hash), c, shape, hash, p);
      MergedContext(a, MergeContexts(b, c, hash), shape, hash, p);
    }
  }

  // ---------- merging all upstream contexts ----------

  function MergeAll(first: Context, rest: seq<Context>, hash: string -> string): (m: Context)
    requires first.vars.Dict? && forall c :: c in rest ==> c.vars.Dict?
    ensures m.vars.Dict?
  {
    if rest == [] then first
    else MergeContexts(MergeAll(first, rest[..|rest| - 1], hash), rest[|rest| - 1], hash)
  }

  const EMPTY := Context(Dict(map[]), map[])

  /** There is a context to add to; an empty one does not count. */
  predicate AddsTo(additive: Option<Context>) {
    additive.Some? && additive.value != EMPTY
  }

  /** The last context is the base unless there is one to add to; the others follow in order. */
  function Upstream(cs: seq<Context>, additive: Option<Context>, hash: string -> string): Context
    requires cs != [] && (forall c :: c in cs ==> c.vars.Dict?) && (additive.Some? ==> additive.value.vars.Dict?)
  {
    if AddsTo(additive) then MergeAll(additive.value, cs, hash)
    else MergeAll(cs[|cs| - 1], cs[..|cs| - 1], hash)
  }

  lemma MergeOneMore(first: Context, rest: seq<Context>, i: nat, hash: string -> string)
    requires first.vars.Dict? && (forall c :: c in rest ==> c.vars.Dict?) && i < |rest|
    ensures MergeAll(first, rest[..i + 1], hash) == MergeContexts(MergeAll(first, rest[..i], hash), rest[i], hash)
  {
    assert rest[..i + 1][..i] == rest[..i];
  }

  method EvaluateUpstreamContext(cs: seq<Context>, additive: Option<Context>, hash: string -> string)
    returns (ctx: Context)
    requires (forall c :: c in cs ==> c.vars.Dict?) && (additive.Some? ==> additive.value.vars.Dict?)
    ensures ctx == if cs == [] then EMPTY else Upstream(cs, additive, hash)
  {
    if cs == [] {
      return EMPTY;
    }
    var rest := cs;
    if additive.Some? && additive.value != EMPTY {
      ctx := additive.value;
    } else {
      ctx := cs[|cs| - 1];
      rest := cs[..|cs| - 1];
    }
    ghost var first := ctx;
    for i := 0 to |rest|
      invariant ctx.vars.Dict? && ctx == MergeAll(first, rest[..i], hash)
    {
      MergeOneMore(first, rest, i, hash);
      ctx := MergeContextByVersion(ctx, rest[i], hash);
    }
    assert rest[..|rest|] == rest;
  }

  /** x is the value of p in some context that holds p at the highest version among cs. */
  ghost predicate TopValue(cs: seq<Context>, p: Path, x: Data, hash: string -> string) {
    exists c :: c in cs && Get(c, p) == Some(x) && forall d :: d in cs ==> Version(d, p, hash) <= Version(c, p, hash)
  }

  ghost predicate AllGood(cs: seq<Context>, shape: Value, hash: string -> string) {
    forall c :: c in cs ==> Good(c, shape, hash)
  }

  /** m has the highest version of p among cs, and the value of a context that has it. */
  ghost predicate Summarises(m: Context, cs: seq<Context>, p: Path, hash: string -> string) {
    && (forall c :: c in cs ==> Version(c, p, hash) <= Version(m, p, hash))
    && (exists c :: c in cs && Version(c, p, hash) == Version(m, p, hash) && Get(c, p) == Get(m, p))
    && (Get(m, p).None? ==> forall c :: c in cs ==> Get(c, p).None?)
  }

  lemma SummaryGrows(m: Context, cs: seq<Context>, c: Context, shape: Value, hash: string -> string, p: Path)
    requires Good(m, shape, hash) && Good(c, shape, hash) && IsVariable(p) && Summarises(m, cs, p, hash)
    ensures Summarises(MergeContexts(m, c, hash), cs + [c], p, hash)
  {
    MergedContext(m, c, shape, hash, p);
    assert c in cs + [c] && forall d :: d in cs ==> d in cs + [c];
  }

  lemma {:induction false} MergedAllIsGood(first: Context, rest: seq<Context>, shape: Value, hash: string -> string)
    requires Good(first, shape, hash) && AllGood(rest, shape, hash)
    ensures Good(MergeAll(first, rest, hash), shape, hash)
  {
    if rest == [] {
    } else {
      var front, last := rest[..|rest| - 1], rest[|rest| - 1];
      assert AllGood(front, shape, hash);
      MergedAllIsGood(first, front, shape, hash);
      MergedIsGood(MergeAll(first, front, hash), last, shape, hash);
    }
  }

  /** What the fold leaves for one variable: the highest version, and the value of a context that has it. */
  lemma {:induction false} MergedAll(first: Context, rest: seq<Context>, shape: Value, hash: string -> string, p: Path)
    requires Good(first, shape, hash) && AllGood(rest, shape, hash) && IsVariable(p)
    ensures Summarises(MergeAll(first, rest, hash), [first] + rest, p, hash)
  {
    if rest == [] {
      assert first in [first] + rest;
    } else {
      var front, last := rest[..|rest| - 1], rest[|rest| - 1];
      assert AllGood(front, shape, hash);
      MergedAll(first, front, shape, hash, p);
      MergedAllIsGood(first, front, shape, hash);
      assert [first] + rest == ([first] + front) + [last];
      SummaryGrows(MergeAll(first, front, hash), [first] + front, last, shape, hash, p);
      assert MergeAll(first, rest, hash) == MergeContexts(MergeAll(first, front, hash), last, hash);
    }
  }

  lemma MergedUpstream(cs: seq<Context>, shape: Value, hash: string -> string, p: Path)
    requires cs != [] && AllGood(cs, shape, hash) && IsVariable(p)
    ensures var m := Upstream(cs, None, hash);
            && Good(m, shape, hash) && Summarises(m, cs, p, hash)
            && (Get(m, p).Some? ==> TopValue(cs, p, Get(m, p).value, hash))
  {
    var base, rest := cs[|cs| - 1], cs[..|cs| - 1];
    assert cs == rest + [base];
    MergedAll(base, rest, shape, hash, p);
    MergedAllIsGood(base, rest, shape, hash);
    assert forall c :: c in cs <==> c in [base] + rest;
  }

  /** The contexts in the order in which they are merged. */
  function InTurn(cs: seq<Context>, additive: Option<Context>): seq<Context>
    requires cs != []
  {
    if AddsTo(additive) then [additive.value] + cs else [cs[|cs| - 1]] + cs[..|cs| - 1]
  }

  /** The context at i is the first of those with the highest version among those that have p. */
  ghost predicate Wins(order: seq<Context>, i: nat, p: Path, hash: string -> string) {
    && i < |order| && Get(order[i], p).Some?
    && (forall k :: 0 <= k < i && Get(order[k], p).Some? ==> Version(order[k], p, hash) < Version(order[i], p, hash))
    && (forall k :: i < k < |order| && Get(order[k], p).Some? ==>
          Version(order[k], p, hash) <= Version(order[i], p, hash))
  }

  /** m has p as the winner has it, or nobody has it. */
  ghost predicate Won(m: Context, order: seq<Context>, p: Path, hash: string -> string) {
    if Get(m, p).None? then forall c :: c in order ==> Get(c, p).None?
    else exists i: nat ::
      Wins(order, i, p, hash) && Get(order[i], p) == Get(m, p) && Version(order[i], p, hash) == Version(m, p, hash)
  }

  lemma EarlierStillWins(order: seq<Context>, c: Context, i: nat, p: Path, hash: string -> string)
    requires Wins(order, i, p, hash)
    requires Get(c, p).Some? ==> Version(c, p, hash) <= Version(order[i], p, hash)
    ensures Wins(order + [c], i, p, hash) && (order + [c])[i] == order[i]
  {
    var longer := order + [c];
    assert longer[|order|] == c && forall k :: 0 <= k < |order| ==> longer[k] == order[k];
  }

  lemma LastWins(order: seq<Context>, c: Context, p: Path, hash: string -> string)
    requires Get(c, p).Some?
    requires forall d :: d in order && Get(d, p).Some? ==> Version(d, p, hash) < Version(c, p, hash)
    ensures Wins(order + [c], |order|, p, hash) && (order + [c])[|order|] == c
  {
    assert forall k :: 0 <= k < |order| ==> (order + [c])[k] in order;
  }

  lemma OneMoreTurn(m: Context, order: seq<Context>, c: Context, shape: Value, hash: string -> string, p: Path)
    requires Good(m, shape, hash) && Good(c, shape, hash) && IsVariable(p) && Won(m, order, p, hash)
    requires Summarises(m, order, p, hash)
    ensures Won(MergeContexts(m, c, hash), order + [c], p, hash)
  {
    MergedContext(m, c, shape, hash, p);
    if Get(m, p).Some? && (Get(c, p).None? || Version(c, p, hash) <= Version(m, p, hash)) {
      var i: nat :| Wins(order, i, p, hash) && Get(order[i], p) == Get(m, p) &&
                    Version(order[i], p, hash) == Version(m, p, hash);
      EarlierStillWins(order, c, i, p, hash);
    } else if Get(c, p).Some? {
      LastWins(order, c, p, hash);
    }
  }

  lemma {:induction false} FirstTurnsWin(first: Context, rest: seq<Context>, shape: Value, hash: string -> string,
                                         p: Path)
    requires Good(first, shape, hash) && AllGood(rest, shape, hash) && IsVariable(p)
    ensures Won(MergeAll(first, rest, hash), [first] + rest, p, hash)
  {
    if rest == [] {
      if Get(first, p).Some? {
        assert Wins([first] + rest, 0, p, hash);
      }
    } else {
      var front, last := rest[..|rest| - 1], rest[|rest| - 1];
      assert AllGood(front, shape, hash);
      FirstTurnsWin(first, front, shape, hash, p);
      MergedAll(first, front, shape, hash, p);
      MergedAllIsGood(first, front, shape, hash);
      assert [first] + rest == ([first] + front) + [last];
      OneMoreTurn(MergeAll(first, front, hash), [first] + front, last, shape, hash, p);
    }
  }

  /**
   With or without a context to add to: a variable comes, with its version, from
   the first of the contexts that have it at the highest version, in the order of
   merging; the context to add to comes first, or else the last upstream one.
   */
  lemma UpstreamWinner(cs: seq<Context>, additive: Option<Context>, shape: Value, hash: string -> string, p: Path)
    requires cs != [] && AllGood(cs, shape, hash) && IsVariable(p)
    requires additive.Some? ==> Good(additive.value, shape, hash)
    ensures Won(Upstream(cs, additive, hash), InTurn(cs, additive), p, hash)
  {
    if AddsTo(additive) {
      FirstTurnsWin(additive.value, cs, shape, hash, p);
    } else {
      FirstTurnsWin(cs[|cs| - 1], cs[..|cs| - 1], shape, hash, p);
    }
  }

  /** The order of the upstream tasks does not matter, except between equally new but different values. */
  lemma OrderDoesNotMatter(cs: seq<Context>, ds: seq<Context>, shape: Value, hash: string -> string, p: Path)
    requires cs != [] && ds != [] && AllGood(cs, shape, hash) && AllGood(ds, shape, hash) && IsVariable(p)
    requires forall c :: c in cs <==> c in ds
    ensures Version(Upstream(cs, None, hash), p, hash) == Version(Upstream(ds, None, hash), p, hash)
    ensures (forall x, y :: TopValue(cs, p, x, hash) && TopValue(cs, p, y, hash) ==> x == y) ==>
              Get(Upstream(cs, None, hash), p) == Get(Upstream(ds, None, hash), p)
  {
    MergedUpstream(cs, shape, hash, p);
    MergedUpstream(ds, shape, hash, p);
    forall x | TopValue(ds, p, x, hash)
      ensures TopValue(cs, p, x, hash)
    {
    }
  }
}
