/** The in-memory podcast store: a map from id to record plus the map's
    insertion order (which fixes the order `getRecentPodcasts` starts from). */
module Storage {
  import opened Outcomes
  import opened Schema

  /** How many records the recent list holds at most. */
  const RecentLimit: nat := 10

  datatype Store = Store(podcasts: map<string, Podcast>, order: seq<string>)

  const EmptyStore: Store := Store(map[], [])

  /** The order lists every key exactly once. */
  ghost predicate Valid(st: Store) {
    && (forall i, j :: 0 <= i < j < |st.order| ==> st.order[i] != st.order[j])
    && (forall k :: k in st.podcasts <==> k in st.order)
  }

  lemma EmptyStoreValid()
    ensures Valid(EmptyStore)
  {
  }

  /** The stored records in insertion order (`Array.from(map.values())`). */
  function Values(st: Store): (vs: seq<Podcast>)
    requires Valid(st)
    ensures |vs| == |st.order|
    ensures forall i :: 0 <= i < |vs| ==> vs[i] == st.podcasts[st.order[i]]
  {
    seq(|st.order|, i requires 0 <= i < |st.order| => st.podcasts[st.order[i]])
  }

  /** `createPodcast`: the record gets the fresh `id` and the clock's `now`;
      a falsy status becomes "processing", a falsy `audioUrl` or `duration`
      (0 included) becomes null. */
  function CreatePodcast(st: Store, ins: InsertPodcast, id: string, now: int): (r: (Store, Podcast))
    requires Valid(st)
    ensures Valid(r.0)
    ensures r.0.podcasts == st.podcasts[id := r.1]
    ensures id !in st.podcasts ==> |r.0.podcasts| == |st.podcasts| + 1 && r.0.order == st.order + [id]
    ensures r.1.id == id && r.1.createdAt == now
    ensures r.1.title == ins.title && r.1.originalContent == ins.originalContent
    ensures r.1.generatedScript == ins.generatedScript && r.1.settings == ins.settings
    ensures r.1.status != ""
    ensures TruthyString(ins.status) ==> r.1.status == ins.status.value
    ensures !TruthyString(ins.status) ==> r.1.status == Processing
    ensures r.1.audioUrl.None? || r.1.audioUrl.value != ""
    ensures TruthyString(ins.audioUrl) ==> r.1.audioUrl == ins.audioUrl
    ensures !TruthyString(ins.audioUrl) ==> r.1.audioUrl.None?
    ensures r.1.duration.None? || r.1.duration.value != 0
    ensures TruthyInt(ins.duration) ==> r.1.duration == ins.duration
    ensures !TruthyInt(ins.duration) ==> r.1.duration.None?
  {
    var p := Podcast(
      id, ins.title, ins.originalContent, ins.generatedScript,
      if TruthyString(ins.audioUrl) then ins.audioUrl else None,
      if TruthyInt(ins.duration) then ins.duration else None,
      ins.settings,
      if TruthyString(ins.status) then ins.status.value else Processing,
      now);
    var order := if id in st.podcasts then st.order else st.order + [id];
    var st' := Store(st.podcasts[id := p], order);
    assert Valid(st') by {
      if id !in st.podcasts {
        assert forall k :: k in st.podcasts[id := p] <==> k in st.order + [id];
      }
    }
    (st', p)
  }

  /** `getPodcast`. */
  function GetPodcast(st: Store, id: string): (r: Option<Podcast>)
    ensures r.Some? <==> id in st.podcasts
    ensures r.Some? ==> r.value == st.podcasts[id]
  {
    if id in st.podcasts then Some(st.podcasts[id]) else None
  }

  /** A created record is found again under its id, and every other record
      is unchanged. */
  lemma CreateThenGet(st: Store, ins: InsertPodcast, id: string, now: int, other: string)
    requires Valid(st)
    requires other != id
    ensures GetPodcast(CreatePodcast(st, ins, id, now).0, id) == Some(CreatePodcast(st, ins, id, now).1)
    ensures GetPodcast(CreatePodcast(st, ins, id, now).0, other) == GetPodcast(st, other)
  {
  }

  // ---- recent list ----------------------------------------------------

  predicate SortedNewestFirst(ps: seq<Podcast>) {
    forall i, j :: 0 <= i < j < |ps| ==> ps[i].createdAt >= ps[j].createdAt
  }

  /** Puts `p` into a newest-first list after every record at least as new
      (so earlier-inserted records stay first among equals). */
  function InsertByDate(p: Podcast, ps: seq<Podcast>): seq<Podcast> {
    if |ps| == 0 then [p]
    else if ps[0].createdAt >= p.createdAt then [ps[0]] + InsertByDate(p, ps[1..])
    else [p] + ps
  }

  lemma {:induction false} InsertByDateContents(p: Podcast, ps: seq<Podcast>)
    ensures multiset(InsertByDate(p, ps)) == multiset(ps) + multiset{p}
    ensures |InsertByDate(p, ps)| == |ps| + 1
  {
    if |ps| > 0 && ps[0].createdAt >= p.createdAt {
      InsertByDateContents(p, ps[1..]);
      assert ps == [ps[0]] + ps[1..];
    }
  }

  lemma {:induction false} InsertByDateSorted(p: Podcast, ps: seq<Podcast>)
    requires SortedNewestFirst(ps)
    ensures SortedNewestFirst(InsertByDate(p, ps))
  {
    InsertByDateContents(p, ps);
    if |ps| > 0 && ps[0].createdAt >= p.createdAt {
      var rest := InsertByDate(p, ps[1..]);
      InsertByDateSorted(p, ps[1..]);
      InsertByDateContents(p, ps[1..]);
      var r := [ps[0]] + rest;
      assert forall i :: 0 <= i < |rest| ==> rest[i].createdAt <= ps[0].createdAt by {
        forall i | 0 <= i < |rest| ensures rest[i].createdAt <= ps[0].createdAt {
          assert rest[i] in multiset(rest);
          assert rest[i] == p || rest[i] in multiset(ps[1..]);
          if rest[i] != p {
            var j :| 0 <= j < |ps[1..]| && ps[1..][j] == rest[i];
            assert ps[j + 1] == rest[i];
          }
        }
      }
      assert forall i :: 1 <= i < |r| ==> r[i] == rest[i - 1];
    }
  }

  /** The comparator sort `(a, b) => b.createdAt - a.createdAt`, stable. */
  function SortNewestFirst(ps: seq<Podcast>): (r: seq<Podcast>)
    ensures SortedNewestFirst(r)
    ensures multiset(r) == multiset(ps)
    ensures |r| == |ps|
  {
    if |ps| == 0 then []
    else
      var front := ps[..|ps| - 1];
      assert ps == front + [ps[|ps| - 1]];
      var sortedFront := SortNewestFirst(front);
      InsertByDateSorted(ps[|ps| - 1], sortedFront);
      InsertByDateContents(ps[|ps| - 1], sortedFront);
      InsertByDate(ps[|ps| - 1], sortedFront)
  }

  function Min(a: nat, b: nat): nat {
    if a <= b then a else b
  }

  /** `getRecentPodcasts`: the records sorted newest first, cut to ten. */
  function GetRecentPodcasts(st: Store): (r: seq<Podcast>)
    requires Valid(st)
    ensures |r| == Min(RecentLimit, |st.order|)
    ensures SortedNewestFirst(r)
    ensures multiset(r) <= multiset(Values(st))
    ensures forall i :: 0 <= i < |r| ==> r[i] in st.podcasts.Values
  {
    var vs := Values(st);
    var sorted := SortNewestFirst(vs);
    var r := sorted[..Min(RecentLimit, |sorted|)];
    assert multiset(r) <= multiset(vs) by { PrefixSubmultiset(sorted, |r|); }
    assert forall i :: 0 <= i < |r| ==> r[i] in st.podcasts.Values by {
      forall i | 0 <= i < |r| ensures r[i] in st.podcasts.Values {
        assert r[i] in multiset(vs);
        InValues(st, r[i]);
      }
    }
    r
  }

  /** A prefix holds no more copies of anything than the whole. */
  lemma PrefixSubmultiset(s: seq<Podcast>, n: nat)
    requires n <= |s|
    ensures multiset(s[..n]) <= multiset(s)
  {
    assert s == s[..n] + s[n..];
  }

  /** Everything listed by `Values` is a stored record. */
  lemma InValues(st: Store, p: Podcast)
    requires Valid(st)
    requires p in multiset(Values(st))
    ensures p in st.podcasts.Values
  {
    var vs := Values(st);
    var j :| 0 <= j < |vs| && vs[j] == p;
    assert st.order[j] in st.podcasts;
  }

  /** Nothing left out of the recent list is newer than anything in it. */
  lemma RecentAreNewest(st: Store, p: Podcast)
    requires Valid(st)
    requires p in multiset(Values(st)) - multiset(GetRecentPodcasts(st))
    ensures forall i :: 0 <= i < |GetRecentPodcasts(st)| ==> p.createdAt <= GetRecentPodcasts(st)[i].createdAt
  {
    var sorted := SortNewestFirst(Values(st));
    var r := GetRecentPodcasts(st);
    assert r == sorted[..|r|];
    LeftOutIsOlder(sorted, |r|, p);
  }

  /** In a newest-first list, an element outside the first `n` is no newer
      than any of them. */
  lemma LeftOutIsOlder(sorted: seq<Podcast>, n: nat, p: Podcast)
    requires SortedNewestFirst(sorted) && n <= |sorted|
    requires p in multiset(sorted) - multiset(sorted[..n])
    ensures forall i :: 0 <= i < n ==> p.createdAt <= sorted[i].createdAt
  {
    var rest := sorted[n..];
    assert sorted == sorted[..n] + rest;
    assert multiset(sorted) == multiset(sorted[..n]) + multiset(rest);
    assert p in multiset(rest);
    var j :| 0 <= j < |rest| && rest[j] == p;
    assert sorted[n + j] == p;
  }

  // ---- updates --------------------------------------------------------

  /** A `Partial<Podcast>`: each field supplied or not. */
  datatype PodcastPatch = PodcastPatch(
    id: Option<string>,
    title: Option<string>,
    originalContent: Option<string>,
    generatedScript: Option<GeneratedScript>,
    audioUrl: Option<Option<string>>,
    duration: Option<Option<int>>,
    settings: Option<GenerationRequest>,
    status: Option<string>,
    createdAt: Option<int>)

  const NoChanges: PodcastPatch := PodcastPatch(None, None, None, None, None, None, None, None, None)

  function Pick<T>(supplied: Option<T>, kept: T): T {
    if supplied.Some? then supplied.value else kept
  }

  /** `{ ...existing, ...updates }`. */
  function Merge(p: Podcast, u: PodcastPatch): Podcast {
    Podcast(
      Pick(u.id, p.id),
      Pick(u.title, p.title),
      Pick(u.originalContent, p.originalContent),
      Pick(u.generatedScript, p.generatedScript),
      Pick(u.audioUrl, p.audioUrl),
      Pick(u.duration, p.duration),
      Pick(u.settings, p.settings),
      Pick(u.status, p.status),
      Pick(u.createdAt, p.createdAt))
  }

  /** Later spreads win: `{...{...p, ...a}, ...b}` is `p` spread with the
      combined patch. */
  function Then(a: PodcastPatch, b: PodcastPatch): PodcastPatch {
    PodcastPatch(
      if b.id.Some? then b.id else a.id,
      if b.title.Some? then b.title else a.title,
      if b.originalContent.Some? then b.originalContent else a.originalContent,
      if b.generatedScript.Some? then b.generatedScript else a.generatedScript,
      if b.audioUrl.Some? then b.audioUrl else a.audioUrl,
      if b.duration.Some? then b.duration else a.duration,
      if b.settings.Some? then b.settings else a.settings,
      if b.status.Some? then b.status else a.status,
      if b.createdAt.Some? then b.createdAt else a.createdAt)
  }

  /** The merge laws: the empty patch changes nothing, a patch applied twice
      is applied once, and two merges in a row are one merge of the
      combined patch. */
  lemma MergeLaws(p: Podcast, a: PodcastPatch, b: PodcastPatch)
    ensures Merge(p, NoChanges) == p
    ensures Merge(Merge(p, a), a) == Merge(p, a)
    ensures Merge(Merge(p, a), b) == Merge(p, Then(a, b))
  {
  }

  /** `updatePodcast`: a missing id yields `undefined` and no change;
      otherwise exactly the supplied fields are overwritten. */
  function UpdatePodcast(st: Store, id: string, u: PodcastPatch): (r: (Store, Option<Podcast>))
    requires Valid(st)
    ensures Valid(r.0)
    ensures r.0.order == st.order && r.0.podcasts.Keys == st.podcasts.Keys
    ensures id !in st.podcasts ==> r.0 == st && r.1.None?
    ensures id in st.podcasts ==> r.1.Some? && r.0.podcasts[id] == r.1.value
    ensures forall k :: k in st.podcasts && k != id ==> r.0.podcasts[k] == st.podcasts[k]
    ensures id in st.podcasts ==>
      var before := st.podcasts[id];
      var after := r.0.podcasts[id];
      && after.id == Pick(u.id, before.id)
      && after.title == Pick(u.title, before.title)
      && after.originalContent == Pick(u.originalContent, before.originalContent)
      && after.generatedScript == Pick(u.generatedScript, before.generatedScript)
      && after.audioUrl == Pick(u.audioUrl, before.audioUrl)
      && after.duration == Pick(u.duration, before.duration)
      && after.settings == Pick(u.settings, before.settings)
      && after.status == Pick(u.status, before.status)
      && after.createdAt == Pick(u.createdAt, before.createdAt)
  {
    if id !in st.podcasts then (st, None)
    else
      var updated := Merge(st.podcasts[id], u);
      (Store(st.podcasts[id := updated], st.order), Some(updated))
  }

  /** The patch that sets only the status. */
  function StatusPatch(status: string): PodcastPatch {
    NoChanges.(status := Some(status))
  }

  /** `updatePodcastStatus`: only the status of that record changes; a
      missing id is a no-op. */
  function UpdatePodcastStatus(st: Store, id: string, status: string): (r: Store)
    requires Valid(st)
    ensures Valid(r)
    ensures r.order == st.order && r.podcasts.Keys == st.podcasts.Keys
    ensures id !in st.podcasts ==> r == st
    ensures id in st.podcasts ==> r.podcasts[id] == st.podcasts[id].(status := status)
    ensures forall k :: k in st.podcasts && k != id ==> r.podcasts[k] == st.podcasts[k]
  {
    if id in st.podcasts then
      Store(st.podcasts[id := st.podcasts[id].(status := status)], st.order)
    else st
  }

  /** The status-only update is the shallow merge of a status-only patch. */
  lemma StatusUpdateIsStatusPatch(st: Store, id: string, status: string)
    requires Valid(st)
    ensures UpdatePodcastStatus(st, id, status) == UpdatePodcast(st, id, StatusPatch(status)).0
  {
  }
}
