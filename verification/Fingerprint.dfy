/** Choosing the winning signature and writing it on the record (score.rs and engine.rs of crates/scanerr-fingerprint/src). */
module Fingerprint {
  import opened Text
  import opened Services
  import opened Evidence
  import opened Matching

  // ─── The winner ───

  /** The first signature with an id. */
  function FirstWithId(sigs: seq<Signature>, id: string): Option<Signature> {
    if sigs == [] then None
    else if sigs[0].id == id then Some(sigs[0])
    else FirstWithId(sigs[1..], id)
  }

  function PriorityOf(sigs: seq<Signature>, id: string): nat {
    match FirstWithId(sigs, id)
    case Some(sig) => sig.priority
    case None => 0
  }

  /** Higher score wins, then the higher priority of the first signature with the id. */
  predicate Beats(lib: Library, sigs: seq<Signature>, facts: Facts, a: Signature, b: Signature) {
    || Score(lib, a, facts) > Score(lib, b, facts)
    || (Score(lib, a, facts) == Score(lib, b, facts) && PriorityOf(sigs, a.id) > PriorityOf(sigs, b.id))
  }

  /** The place of the winner among the first `n`. */
  function Best(lib: Library, sigs: seq<Signature>, facts: Facts, n: nat): (r: Option<nat>)
    requires n <= |sigs|
    ensures r.Some? ==> r.value < n
  {
    if n == 0 then None
    else
      var best := Best(lib, sigs, facts, n - 1);
      if !Matched(lib, sigs[n - 1], facts) then best
      else if best.None? || Beats(lib, sigs, facts, sigs[n - 1], sigs[best.value]) then Some(n - 1)
      else best
  }

  /** `i` matches, nothing matching beats it, and it beats everything matching before it. */
  predicate IsBest(lib: Library, sigs: seq<Signature>, facts: Facts, n: nat, i: nat)
    requires n <= |sigs|
  {
    && i < n && Matched(lib, sigs[i], facts)
    && (forall j :: 0 <= j < n && Matched(lib, sigs[j], facts) ==> !Beats(lib, sigs, facts, sigs[j], sigs[i]))
    && (forall j :: 0 <= j < i && Matched(lib, sigs[j], facts) ==> Beats(lib, sigs, facts, sigs[i], sigs[j]))
  }

  lemma BeatsThrough(lib: Library, sigs: seq<Signature>, facts: Facts, a: Signature, b: Signature, c: Signature)
    requires Beats(lib, sigs, facts, a, b) && !Beats(lib, sigs, facts, c, b)
    ensures Beats(lib, sigs, facts, a, c) && !Beats(lib, sigs, facts, c, a)
  {
    hide Score, PriorityOf;
  }

  lemma NewBest(lib: Library, sigs: seq<Signature>, facts: Facts, n: nat, i: nat)
    requires n < |sigs| && IsBest(lib, sigs, facts, n, i)
    requires Matched(lib, sigs[n], facts) && Beats(lib, sigs, facts, sigs[n], sigs[i])
    ensures IsBest(lib, sigs, facts, n + 1, n)
  {
    hide Matched, Beats;
    forall j | 0 <= j < n && Matched(lib, sigs[j], facts)
      ensures Beats(lib, sigs, facts, sigs[n], sigs[j]) && !Beats(lib, sigs, facts, sigs[j], sigs[n])
    {
      BeatsThrough(lib, sigs, facts, sigs[n], sigs[i], sigs[j]);
    }
    NotItself(lib, sigs, facts, sigs[n]);
  }

  lemma NotItself(lib: Library, sigs: seq<Signature>, facts: Facts, a: Signature)
    ensures !Beats(lib, sigs, facts, a, a)
  {
  }

  lemma KeptBest(lib: Library, sigs: seq<Signature>, facts: Facts, n: nat, i: nat)
    requires n < |sigs| && IsBest(lib, sigs, facts, n, i)
    requires !Matched(lib, sigs[n], facts) || !Beats(lib, sigs, facts, sigs[n], sigs[i])
    ensures IsBest(lib, sigs, facts, n + 1, i)
  {
    hide Matched, Beats;
  }

  predicate NoneMatched(lib: Library, sigs: seq<Signature>, facts: Facts, n: nat)
    requires n <= |sigs|
  {
    forall j :: 0 <= j < n ==> !Matched(lib, sigs[j], facts)
  }

  lemma OnlyBest(lib: Library, sigs: seq<Signature>, facts: Facts, n: nat)
    requires n < |sigs| && NoneMatched(lib, sigs, facts, n)
    ensures if Matched(lib, sigs[n], facts) then IsBest(lib, sigs, facts, n + 1, n)
            else NoneMatched(lib, sigs, facts, n + 1)
  {
    hide Matched, Beats;
    NotItself(lib, sigs, facts, sigs[n]);
  }

  lemma {:induction false} BestIsBest(lib: Library, sigs: seq<Signature>, facts: Facts, n: nat)
    requires n <= |sigs|
    ensures var best := Best(lib, sigs, facts, n);
      if best.Some? then IsBest(lib, sigs, facts, n, best.value) else NoneMatched(lib, sigs, facts, n)
  {
    hide Matched, Beats, IsBest;
    if n > 0 {
      BestIsBest(lib, sigs, facts, n - 1);
      hide NoneMatched;
      var best := Best(lib, sigs, facts, n - 1);
      if best.None? {
        OnlyBest(lib, sigs, facts, n - 1);
      } else if Matched(lib, sigs[n - 1], facts) && Beats(lib, sigs, facts, sigs[n - 1], sigs[best.value]) {
        NewBest(lib, sigs, facts, n - 1, best.value);
      } else {
        KeptBest(lib, sigs, facts, n - 1, best.value);
      }
    }
  }

  lemma BestIsOnly(lib: Library, sigs: seq<Signature>, facts: Facts, i: nat)
    ensures Best(lib, sigs, facts, |sigs|) == Some(i) <==> IsBest(lib, sigs, facts, |sigs|, i)
    ensures Best(lib, sigs, facts, |sigs|) == None <==> NoneMatched(lib, sigs, facts, |sigs|)
  {
    hide Best, Matched, Beats;
    BestIsBest(lib, sigs, facts, |sigs|);
    if IsBest(lib, sigs, facts, |sigs|, i) {
      assert Matched(lib, sigs[i], facts);
      var best := Best(lib, sigs, facts, |sigs|).value;
      assert i < best || i == best || best < i;
    }
  }

  /** The place of the first signature with the id of the one at `j`. */
  function FirstPlace(sigs: seq<Signature>, j: nat): (k: nat)
    requires j < |sigs|
    ensures k <= j && sigs[k].id == sigs[j].id && forall h :: 0 <= h < k ==> sigs[h].id != sigs[j].id
  {
    PlaceFrom(sigs, j, 0)
  }

  function PlaceFrom(sigs: seq<Signature>, j: nat, from: nat): (k: nat)
    requires from <= j < |sigs|
    ensures from <= k <= j && sigs[k].id == sigs[j].id && forall h :: from <= h < k ==> sigs[h].id != sigs[j].id
    decreases j - from
  {
    if sigs[from].id == sigs[j].id then from else PlaceFrom(sigs, j, from + 1)
  }

  lemma {:induction false} FirstWithIdIs(sigs: seq<Signature>, id: string, k: nat)
    requires k < |sigs| && sigs[k].id == id && forall h :: 0 <= h < k ==> sigs[h].id != id
    ensures FirstWithId(sigs, id) == Some(sigs[k])
  {
    if k > 0 {
      FirstWithIdIs(sigs[1..], id, k - 1);
    }
  }

  /** What settles a tie: the priority of the first signature with the same id. */
  function Rank(sigs: seq<Signature>, j: nat): nat
    requires j < |sigs|
  {
    sigs[FirstPlace(sigs, j)].priority
  }

  /**
   `i` matches; no match has a higher score; none of the same score has a higher
   rank; and every match before it has a lower score or, at the same score, a lower rank.
   */
  predicate Foremost(lib: Library, sigs: seq<Signature>, facts: Facts, i: nat) {
    && i < |sigs| && Matched(lib, sigs[i], facts)
    && var best := Score(lib, sigs[i], facts);
       && (forall j :: 0 <= j < |sigs| && Matched(lib, sigs[j], facts) ==> Score(lib, sigs[j], facts) <= best)
       && (forall j :: 0 <= j < |sigs| && Matched(lib, sigs[j], facts) && Score(lib, sigs[j], facts) == best ==>
             Rank(sigs, j) <= Rank(sigs, i))
       && (forall j :: 0 <= j < i && Matched(lib, sigs[j], facts) && Score(lib, sigs[j], facts) == best ==>
             Rank(sigs, j) < Rank(sigs, i))
  }

  lemma BeatsByNumbers(lib: Library, sigs: seq<Signature>, facts: Facts, i: nat, j: nat)
    requires i < |sigs| && j < |sigs|
    ensures Beats(lib, sigs, facts, sigs[i], sigs[j]) <==>
      || Score(lib, sigs[i], facts) > Score(lib, sigs[j], facts)
      || (Score(lib, sigs[i], facts) == Score(lib, sigs[j], facts) && Rank(sigs, i) > Rank(sigs, j))
  {
    FirstWithIdIs(sigs, sigs[i].id, FirstPlace(sigs, i));
    FirstWithIdIs(sigs, sigs[j].id, FirstPlace(sigs, j));
    hide Score, FirstWithId;
  }

  lemma BestIsForemost(lib: Library, sigs: seq<Signature>, facts: Facts, i: nat)
    ensures IsBest(lib, sigs, facts, |sigs|, i) <==> Foremost(lib, sigs, facts, i)
  {
    hide Beats, Matched, Score, Rank;
    if i < |sigs| {
      forall j | 0 <= j < |sigs|
        ensures Beats(lib, sigs, facts, sigs[i], sigs[j]) <==>
          || Score(lib, sigs[i], facts) > Score(lib, sigs[j], facts)
          || (Score(lib, sigs[i], facts) == Score(lib, sigs[j], facts) && Rank(sigs, i) > Rank(sigs, j))
        ensures Beats(lib, sigs, facts, sigs[j], sigs[i]) <==>
          || Score(lib, sigs[j], facts) > Score(lib, sigs[i], facts)
          || (Score(lib, sigs[j], facts) == Score(lib, sigs[i], facts) && Rank(sigs, j) > Rank(sigs, i))
      {
        BeatsByNumbers(lib, sigs, facts, i, j);
        BeatsByNumbers(lib, sigs, facts, j, i);
      }
    }
  }

  /** `resolve` picks the foremost signature, and none exactly when none match. */
  lemma BestIsArgmax(lib: Library, sigs: seq<Signature>, facts: Facts, i: nat)
    ensures Best(lib, sigs, facts, |sigs|) == Some(i) <==> Foremost(lib, sigs, facts, i)
    ensures Best(lib, sigs, facts, |sigs|) == None <==> NoneMatched(lib, sigs, facts, |sigs|)
  {
    hide Best, IsBest, Foremost, NoneMatched;
    BestIsOnly(lib, sigs, facts, i);
    BestIsForemost(lib, sigs, facts, i);
  }

  lemma WinnerPlaced(lib: Library, sigs: seq<Signature>, facts: Facts, r: Option<MatchResult>)
    requires var best := Best(lib, sigs, facts, |sigs|);
      r == if best.None? then None else Some(Evaluated(lib, sigs[best.value], facts))
    ensures r == None <==> NoneMatched(lib, sigs, facts, |sigs|)
    ensures forall i: nat :: Foremost(lib, sigs, facts, i) ==> i < |sigs| && r == Some(Evaluated(lib, sigs[i], facts))
    ensures r != None ==> exists i: nat :: Foremost(lib, sigs, facts, i)
  {
    hide Best, Evaluated, Foremost, NoneMatched;
    BestIsArgmax(lib, sigs, facts, 0);
    forall i: nat ensures Best(lib, sigs, facts, |sigs|) == Some(i) <==> Foremost(lib, sigs, facts, i) {
      BestIsArgmax(lib, sigs, facts, i);
    }
  }

  method Resolve(lib: Library, sigs: seq<Signature>, facts: Facts) returns (r: Option<MatchResult>)
    ensures var best := Best(lib, sigs, facts, |sigs|);
      r == if best.None? then None else Some(Evaluated(lib, sigs[best.value], facts))
    ensures r == None <==> NoneMatched(lib, sigs, facts, |sigs|)
    ensures forall i: nat :: Foremost(lib, sigs, facts, i) ==> i < |sigs| && r == Some(Evaluated(lib, sigs[i], facts))
    ensures r != None ==> exists i: nat :: Foremost(lib, sigs, facts, i)
  {
    hide Matched, Score, Confidence, PriorityOf, Foremost, NoneMatched;
    r := None;
    for i := 0 to |sigs|
      invariant var best := Best(lib, sigs, facts, i);
        r == if best.None? then None else Some(Evaluated(lib, sigs[best.value], facts))
    {
      var result := Evaluate(lib, sigs[i], facts);
      if !result.matched {
        continue;
      }
      if r.None? {
        r := Some(result);
      } else {
        var current := r.value;
        if result.score > current.score {
          r := Some(result);
        } else if result.score == current.score {
          var sigPrio := PriorityOf(sigs, result.id);
          var curPrio := PriorityOf(sigs, current.id);
          if sigPrio > curPrio {
            r := Some(result);
          }
        }
      }
    }
    WinnerPlaced(lib, sigs, facts, r);
  }

  // ─── Merging tags ───

  predicate Has(tags: seq<string>, tag: string) {
    exists i :: 0 <= i < |tags| && SameIgnoringCase(tags[i], tag)
  }

  function AddTag(tags: seq<string>, tag: string): seq<string> {
    if Has(tags, tag) then tags else tags + [tag]
  }

  /** Each new tag is added unless one like it is there. */
  function Merge(tags: seq<string>, more: seq<string>): seq<string> {
    if more == [] then tags
    else
      var n := |more| - 1;
      AddTag(Merge(tags, more[..n]), more[n])
  }

  method MergeTags(tags: seq<string>, more: seq<string>) returns (r: seq<string>)
    ensures r == Merge(tags, more)
  {
    r := tags;
    for i := 0 to |more|
      invariant r == Merge(tags, more[..i])
    {
      assert more[..i + 1][..i] == more[..i];
      if !Has(r, more[i]) {
        r := r + [more[i]];
      }
    }
    assert more[..|more|] == more;
  }

  lemma HasAppend(tags: seq<string>, more: seq<string>, tag: string)
    requires Has(tags, tag)
    ensures Has(tags + more, tag)
  {
    var i :| 0 <= i < |tags| && SameIgnoringCase(tags[i], tag);
    assert (tags + more)[i] == tags[i];
  }

  lemma {:induction false} MergeHas(tags: seq<string>, more: seq<string>, k: nat)
    requires k < |more|
    ensures Has(Merge(tags, more), more[k])
  {
    var n := |more| - 1;
    var before := Merge(tags, more[..n]);
    if k < n {
      MergeHas(tags, more[..n], k);
      if !Has(before, more[n]) {
        HasAppend(before, [more[n]], more[k]);
      }
    } else if !Has(before, more[n]) {
      assert (before + [more[n]])[|before|] == more[n];
    }
  }

  lemma {:induction false} MergeNothing(tags: seq<string>, more: seq<string>)
    requires forall k :: 0 <= k < |more| ==> Has(tags, more[k])
    ensures Merge(tags, more) == tags
  {
    if more != [] {
      MergeNothing(tags, more[..|more| - 1]);
    }
  }

  /** Merging the same tags again adds nothing. */
  lemma MergeTwice(tags: seq<string>, more: seq<string>)
    ensures Merge(Merge(tags, more), more) == Merge(tags, more)
  {
    forall k | 0 <= k < |more| ensures Has(Merge(tags, more), more[k]) {
      MergeHas(tags, more, k);
    }
    MergeNothing(Merge(tags, more), more);
  }

  /** What merging keeps: the tags there were, first and unchanged, and no two of the new ones alike. */
  lemma {:induction false} MergeKeeps(tags: seq<string>, more: seq<string>)
    ensures tags <= Merge(tags, more)
    ensures var r := Merge(tags, more);
      forall i, j :: 0 <= i < j < |r| && |tags| <= j ==> !SameIgnoringCase(r[i], r[j])
  {
    if more != [] {
      var n := |more| - 1;
      MergeKeeps(tags, more[..n]);
      hide SameIgnoringCase;
    }
  }

  /** A tag that is like none there was and like none offered before it. */
  predicate Newcomer(tags: seq<string>, more: seq<string>, k: nat) {
    k < |more| && !Has(tags, more[k]) && !Has(more[..k], more[k])
  }

  function Chosen(more: seq<string>, picks: seq<nat>): (r: seq<string>)
    requires forall i :: 0 <= i < |picks| ==> picks[i] < |more|
    ensures |r| == |picks|
  {
    seq(|picks|, i requires 0 <= i < |picks| => more[picks[i]])
  }

  lemma {:induction false} MergedHas(tags: seq<string>, more: seq<string>, tag: string)
    ensures Has(Merge(tags, more), tag) <==> Has(tags, tag) || Has(more, tag)
  {
    if more != [] {
      var n := |more| - 1;
      MergedHas(tags, more[..n], tag);
      HasSnoc(more[..n], more[n], tag);
      HasSnoc(Merge(tags, more[..n]), more[n], tag);
      assert more == more[..n] + [more[n]];
      if Has(Merge(tags, more[..n]), more[n]) && SameIgnoringCase(more[n], tag) {
        HasLike(Merge(tags, more[..n]), more[n], tag);
      }
      hide Has, SameIgnoringCase;
    }
  }

  lemma HasSnoc(tags: seq<string>, last: string, tag: string)
    ensures Has(tags + [last], tag) <==> Has(tags, tag) || SameIgnoringCase(last, tag)
  {
    hide SameIgnoringCase;
    if Has(tags, tag) {
      HasAppend(tags, [last], tag);
    }
    assert (tags + [last])[|tags|] == last;
  }

  lemma HasLike(tags: seq<string>, a: string, b: string)
    requires Has(tags, a) && SameIgnoringCase(a, b)
    ensures Has(tags, b)
  {
  }

  /** Merging adds exactly the newcomers, as they are and in their order. */
  lemma {:induction false} MergeAdds(tags: seq<string>, more: seq<string>) returns (picks: seq<nat>)
    ensures forall i, j :: 0 <= i < j < |picks| ==> picks[i] < picks[j]
    ensures forall i :: 0 <= i < |picks| ==> picks[i] < |more|
    ensures forall k: nat :: k in picks <==> Newcomer(tags, more, k)
    ensures Merge(tags, more) == tags + Chosen(more, picks)
  {
    picks := [];
    if more != [] {
      var n := |more| - 1;
      var before := more[..n];
      picks := MergeAdds(tags, before);
      assert Chosen(before, picks) == Chosen(more, picks);
      MergedHas(tags, before, more[n]);
      forall k: nat | k < n ensures Newcomer(tags, more, k) <==> Newcomer(tags, before, k) {
        NewcomersBefore(tags, more, k);
      }
      hide Has;
      if !Has(tags, more[n]) && !Has(before, more[n]) {
        assert Chosen(more, picks + [n]) == Chosen(more, picks) + [more[n]];
        picks := picks + [n];
      }
    }
  }

  lemma NewcomersBefore(tags: seq<string>, more: seq<string>, k: nat)
    requires more != [] && k < |more| - 1
    ensures Newcomer(tags, more, k) <==> Newcomer(tags, more[..|more| - 1], k)
  {
    hide Has;
    assert more[..|more| - 1][..k] == more[..k];
  }

  // ─── Identifying ───

  function Winner(lib: Library, sigs: seq<Signature>, facts: Facts): Option<MatchResult> {
    var best := Best(lib, sigs, facts, |sigs|);
    if best.None? then None else Some(Evaluated(lib, sigs[best.value], facts))
  }

  function Identified(lib: Library, sigs: seq<Signature>, d: Service): Service {
    var winner := Winner(lib, sigs, FactsOf(lib.fold, d));
    if winner.None? then d
    else
      var sig := FirstWithId(sigs, winner.value.id);
      if sig.None? then d
      else
        d.(product := Some(sig.value.name), confidence := Some(winner.value.confidence),
           tags := Merge(d.tags, sig.value.tags))
  }

  /**
   What identification comes to: the foremost signature gives the confidence, the
   first one with its id the product and the tags; nothing else on the record changes.
   */
  lemma IdentifiedAs(lib: Library, sigs: seq<Signature>, d: Service, i: nat)
    ensures var facts := FactsOf(lib.fold, d);
      && (NoneMatched(lib, sigs, facts, |sigs|) ==> Identified(lib, sigs, d) == d)
      && (Foremost(lib, sigs, facts, i) ==>
            var named := sigs[FirstPlace(sigs, i)];
            Identified(lib, sigs, d) ==
              d.(product := Some(named.name), confidence := Some(Confidence(lib, sigs[i], facts)),
                 tags := Merge(d.tags, named.tags)))
  {
    var facts := FactsOf(lib.fold, d);
    hide Best, FactsOf, Merge, FirstWithId, Foremost, NoneMatched, Confidence, Score, Matched, FirstPlace;
    BestIsArgmax(lib, sigs, facts, i);
    if Foremost(lib, sigs, facts, i) {
      FirstWithIdIs(sigs, sigs[i].id, FirstPlace(sigs, i));
    }
  }

  method Identify(lib: Library, sigs: seq<Signature>, data: Record)
    modifies data
    ensures data.Data() == Identified(lib, sigs, old(data.Data()))
  {
    hide Best, Evaluated, FactsOf, Merge, FirstWithId;
    var evidence := From(lib.fold, data.Data());
    var result := Resolve(lib, sigs, evidence);
    if result.Some? {
      var sig := FirstWithId(sigs, result.value.id);
      if sig.Some? {
        data.product := Some(sig.value.name);
        data.confidence := Some(result.value.confidence);
        data.tags := MergeTags(data.tags, sig.value.tags);
      }
    }
  }

  // ─── Load order ───

  predicate DistinctIds(sigs: seq<Signature>) {
    forall i, j :: 0 <= i < j < |sigs| ==> sigs[i].id != sigs[j].id
  }

  /** The best of all, with no other matching signature as good. */
  predicate ClearWinner(lib: Library, sigs: seq<Signature>, facts: Facts, i: nat)
    requires i < |sigs|
  {
    && Matched(lib, sigs[i], facts)
    && forall j :: 0 <= j < |sigs| && j != i && Matched(lib, sigs[j], facts) ==>
         || Score(lib, sigs[j], facts) < Score(lib, sigs[i], facts)
         || (Score(lib, sigs[j], facts) == Score(lib, sigs[i], facts) && sigs[j].priority < sigs[i].priority)
  }

  lemma ClearWinnerMoves(lib: Library, a: seq<Signature>, b: seq<Signature>, facts: Facts, i: nat, k: nat)
    requires DistinctIds(b)
    requires forall sig :: sig in a <==> sig in b
    requires i < |a| && k < |b| && b[k] == a[i] && ClearWinner(lib, a, facts, i)
    ensures ClearWinner(lib, b, facts, k)
  {
    hide Matched, Score;
    forall j | 0 <= j < |b| && j != k && Matched(lib, b[j], facts)
      ensures
        || Score(lib, b[j], facts) < Score(lib, b[k], facts)
        || (Score(lib, b[j], facts) == Score(lib, b[k], facts) && b[j].priority < b[k].priority)
    {
      assert b[j] in a;
      var m :| 0 <= m < |a| && a[m] == b[j];
      assert m != i by {
        assert b[j].id != b[k].id;
      }
    }
  }

  lemma OwnRank(sigs: seq<Signature>, j: nat)
    requires DistinctIds(sigs) && j < |sigs|
    ensures FirstPlace(sigs, j) == j && Rank(sigs, j) == sigs[j].priority
  {
  }

  lemma ClearWinnerWins(lib: Library, sigs: seq<Signature>, facts: Facts, i: nat)
    requires i < |sigs| && DistinctIds(sigs) && ClearWinner(lib, sigs, facts, i)
    ensures Foremost(lib, sigs, facts, i) && FirstPlace(sigs, i) == i
  {
    hide Matched, Score, FirstPlace, Rank;
    forall j | 0 <= j < |sigs| ensures Rank(sigs, j) == sigs[j].priority {
      OwnRank(sigs, j);
    }
    OwnRank(sigs, i);
  }

  /** With distinct ids and no tie at the top, identification does not depend on the order signatures were loaded in. */
  lemma LoadOrder(lib: Library, a: seq<Signature>, b: seq<Signature>, d: Service, i: nat)
    requires DistinctIds(a) && DistinctIds(b)
    requires forall sig :: sig in a <==> sig in b
    requires i < |a| && ClearWinner(lib, a, FactsOf(lib.fold, d), i)
    ensures Identified(lib, a, d) == Identified(lib, b, d)
    ensures Identified(lib, a, d).product == Some(a[i].name)
  {
    var facts := FactsOf(lib.fold, d);
    hide FactsOf, Identified, ClearWinner, Foremost, FirstPlace, Merge, Score, Confidence, Matched, NoneMatched;
    assert a[i] in b;
    var k :| 0 <= k < |b| && b[k] == a[i];
    ClearWinnerMoves(lib, a, b, facts, i, k);
    ClearWinnerWins(lib, a, facts, i);
    ClearWinnerWins(lib, b, facts, k);
    IdentifiedAs(lib, a, d, i);
    IdentifiedAs(lib, b, d, k);
  }
}
