/** Grouping index entries by "bucket/key", and when a group is one object. */
module Grouping {
  import opened GoText
  import opened Sequences
  import opened StoredEvents

  function PathOf(meta: Metadata): string {
    meta.bucket + ['/'] + meta.objectKey
  }

  function Path(): Metadata -> string {
    (meta: Metadata) => PathOf(meta)
  }

  function Paths(metas: seq<Metadata>): set<string> {
    set m | m in metas :: PathOf(m)
  }

  /** Every path with its entries in their order: nothing lost, nothing repeated. */
  ghost predicate IsGrouping(metas: seq<Metadata>, grouped: map<string, seq<Metadata>>) {
    && grouped.Keys == Paths(metas)
    && forall path | path in grouped :: grouped[path] == OnKey(Path(), metas, path)
  }

  /** grouped[path] = append(grouped[path], meta), where a missing entry reads as empty. */
  function Appended(grouped: map<string, seq<Metadata>>, meta: Metadata): map<string, seq<Metadata>> {
    var path := PathOf(meta);
    grouped[path := (if path in grouped then grouped[path] else []) + [meta]]
  }

  method GroupByPath(metas: seq<Metadata>) returns (grouped: map<string, seq<Metadata>>)
    ensures IsGrouping(metas, grouped)
  {
    grouped := map[];
    assert IsGrouping(metas[..0], grouped);
    hide IsGrouping, Appended;
    for k := 0 to |metas|
      invariant IsGrouping(metas[..k], grouped)
    {
      GroupStep(metas, k, grouped);
      grouped := Appended(grouped, metas[k]);
    }
    assert metas[..|metas|] == metas;
  }

  lemma GroupStep(metas: seq<Metadata>, k: nat, grouped: map<string, seq<Metadata>>)
    requires k < |metas| && IsGrouping(metas[..k], grouped)
    ensures IsGrouping(metas[..k + 1], Appended(grouped, metas[k]))
  {
    assert metas[..k + 1] == metas[..k] + [metas[k]];
    GroupOneMore(metas[..k], metas[k], grouped);
  }

  lemma GroupOneMore(metas: seq<Metadata>, meta: Metadata, grouped: map<string, seq<Metadata>>)
    requires IsGrouping(metas, grouped)
    ensures IsGrouping(metas + [meta], Appended(grouped, meta))
  {
    hide OnKey, PathOf, Paths;
    PathsStep(metas, meta);
    OffPathEmpty(metas, PathOf(meta));
    forall p | p in Appended(grouped, meta)
      ensures Appended(grouped, meta)[p] == OnKey(Path(), metas + [meta], p)
    {
      OnPathStep(metas, meta, p);
    }
  }

  lemma PathsStep(metas: seq<Metadata>, m: Metadata)
    ensures Paths(metas + [m]) == Paths(metas) + {PathOf(m)}
  {
    assert m in metas + [m];
    assert forall a | a in metas :: a in metas + [m];
  }

  lemma OnPathStep(metas: seq<Metadata>, m: Metadata, path: string)
    ensures OnKey(Path(), metas + [m], path)
         == if PathOf(m) == path then OnKey(Path(), metas, path) + [m] else OnKey(Path(), metas, path)
  {
    OnKeyConcat(Path(), metas, [m], path);
    assert [m][1..] == [];
  }

  lemma OffPathEmpty(metas: seq<Metadata>, path: string)
    ensures path !in Paths(metas) ==> OnKey(Path(), metas, path) == []
  {
    var r := OnKey(Path(), metas, path);
    HasMember(r);
    if a :| a in r { assert a in metas && Path()(a) == path; }
  }

  // ---------------------------------------------------------------- when a path names one object

  predicate SamePlace(a: Metadata, b: Metadata) {
    a.bucket == b.bucket && a.objectKey == b.objectKey
  }

  /** Entries with the same path lie in the same object. */
  predicate PathsNameObjects(metas: seq<Metadata>) {
    forall a, b | a in metas && b in metas && PathOf(a) == PathOf(b) :: SamePlace(a, b)
  }

  /** One bucket name, followed by a slash, begins another. */
  predicate Nested(outer: string, inner: string) {
    outer + ['/'] <= inner
  }

  lemma SamePathCases(a: Metadata, b: Metadata)
    requires PathOf(a) == PathOf(b)
    ensures SamePlace(a, b) || Nested(a.bucket, b.bucket) || Nested(b.bucket, a.bucket)
  {
    var path := PathOf(a);
    assert path[..|a.bucket|] == a.bucket && path[..|b.bucket|] == b.bucket;
    assert path[|a.bucket|] == '/' && path[|b.bucket|] == '/';
    if |a.bucket| < |b.bucket| {
      assert b.bucket[..|a.bucket| + 1] == a.bucket + ['/'];
    } else if |b.bucket| < |a.bucket| {
      assert a.bucket[..|b.bucket| + 1] == b.bucket + ['/'];
    } else {
      assert path[|a.bucket| + 1..] == a.objectKey && path[|b.bucket| + 1..] == b.objectKey;
    }
  }

  lemma UnnestedBucketsSuffice(metas: seq<Metadata>)
    requires forall a, b | a in metas && b in metas :: !Nested(a.bucket, b.bucket)
    ensures PathsNameObjects(metas)
  {
    forall a, b | a in metas && b in metas && PathOf(a) == PathOf(b) ensures SamePlace(a, b) {
      SamePathCases(a, b);
    }
  }

  /** No bucket name among these, followed by a slash, begins another. */
  predicate Unnested(buckets: set<string>) {
    forall x, y | x in buckets && y in buckets && BucketName(x) && BucketName(y) :: !Nested(x, y)
  }

  /** Entries of these buckets can share a path only if they share an object. */
  ghost predicate Unconfusable(buckets: set<string>) {
    forall a: Metadata, b: Metadata ::
      Indexable(a) && Indexable(b) && a.bucket in buckets && b.bucket in buckets && PathOf(a) == PathOf(b)
      ==> SamePlace(a, b)
  }

  /** The entry at the first byte of key k in the inner bucket, and the one of the outer bucket that has its path. */
  function InnerEntry(inner: string): Metadata {
    Metadata(inner, "k", 0, 1, 0)
  }

  function OuterEntry(outer: string, inner: string): Metadata
    requires Nested(outer, inner)
  {
    Metadata(outer, inner[|outer| + 1..] + "/k", 0, 1, 0)
  }

  /** Two entries the index can hold, of different objects but with one path. */
  lemma NestedShareAPath(outer: string, inner: string)
    requires BucketName(outer) && BucketName(inner) && Nested(outer, inner)
    ensures var a, b := InnerEntry(inner), OuterEntry(outer, inner);
            Indexable(a) && Indexable(b) && PathOf(a) == PathOf(b) && !SamePlace(a, b)
  {
    var rest := inner[|outer| + 1..];
    assert inner == outer + ['/'] + rest;
    assert outer + ['/'] + (rest + "/k") == outer + ['/'] + rest + ['/'] + "k";
  }

  /** Grouping by path is grouping by object, for all keys, exactly when no bucket name is nested in another. */
  lemma UnconfusableExactly(buckets: set<string>)
    ensures Unconfusable(buckets) <==> Unnested(buckets)
  {
    if Unnested(buckets) {
      forall a: Metadata, b: Metadata
        | Indexable(a) && Indexable(b) && a.bucket in buckets && b.bucket in buckets && PathOf(a) == PathOf(b)
        ensures SamePlace(a, b)
      {
        SamePathCases(a, b);
      }
    }
    if x, y :| x in buckets && y in buckets && BucketName(x) && BucketName(y) && Nested(x, y) {
      NestedShareAPath(x, y);
    }
  }

  /** Only a bucket with a slash in its name can be nested. */
  lemma NestedHasSlash(outer: string, inner: string)
    requires Nested(outer, inner)
    ensures !Free(inner, '/')
  {
    assert inner[|outer|] == '/';
  }
}
