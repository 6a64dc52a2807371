/** Metering of streamed Gemini images: each frame repeats the images known so far, so the largest count of a frame
    stands for each identity. */
module ImageMeter {
  import opened Outcomes

  const LIMIT := 64

  type Counts = map<string, nat>

  function Of(counts: Counts, id: string): nat {
    if id in counts then counts[id] else 0
  }

  ghost function Total(counts: Counts): nat
    decreases |counts|
  {
    if |counts| == 0 then 0
    else
      var id :| id in counts;
      counts[id] + Total(counts - {id})
  }

  lemma TotalPick(counts: Counts) returns (first: string)
    requires |counts| > 0
    ensures first in counts && Total(counts) == counts[first] + Total(counts - {first})
  {
    first :| first in counts && Total(counts) == counts[first] + Total(counts - {first});
  }

  lemma SmallerCounts(counts: Counts, id: string)
    requires id in counts
    ensures |counts - {id}| == |counts| - 1
  {
    assert (counts - {id}).Keys == counts.Keys - {id};
  }

  /** Any identity may be counted first. */
  lemma {:induction false} TotalAt(counts: Counts, id: string)
    requires id in counts
    ensures Total(counts) == counts[id] + Total(counts - {id})
    decreases |counts|
  {
    SmallerCounts(counts, id);
    var first := TotalPick(counts);
    if first != id {
      SmallerCounts(counts, first);
      TotalAt(counts - {first}, id);
      TotalAt(counts - {id}, first);
      assert counts - {first} - {id} == counts - {id} - {first};
    }
  }

  lemma TotalSet(counts: Counts, id: string, n: nat)
    ensures Total(counts[id := n]) == Total(counts) - Of(counts, id) + n
  {
    TotalAt(counts[id := n], id);
    if id in counts {
      TotalAt(counts, id);
      assert counts[id := n] - {id} == counts - {id};
    } else {
      assert counts[id := n] - {id} == counts;
    }
  }

  function Max(a: nat, b: nat): nat {
    if a < b then b else a
  }

  /** The larger count for each identity; identities with no image are not kept. */
  function Merge(known: Counts, frame: Counts): Counts {
    map id | id in known.Keys + frame.Keys && (id in known || frame[id] > 0) :: Max(Of(known, id), Of(frame, id))
  }

  /** The largest count any frame gave an identity. */
  function Largest(frames: seq<Counts>, id: string): nat {
    if frames == [] then 0 else Max(Largest(frames[..|frames| - 1], id), Of(frames[|frames| - 1], id))
  }

  function MergeAll(frames: seq<Counts>): Counts {
    if frames == [] then map[] else Merge(MergeAll(frames[..|frames| - 1]), frames[|frames| - 1])
  }

  /** Every identity's count is the largest any frame gave it, whatever the order of the frames. */
  lemma {:induction false} MergeIsLargest(frames: seq<Counts>, id: string)
    ensures Of(MergeAll(frames), id) == Largest(frames, id)
    ensures id in MergeAll(frames) ==> Largest(frames, id) > 0
  {
    if frames != [] {
      MergeIsLargest(frames[..|frames| - 1], id);
    }
  }

  /** Two runs whose frames give the same largest counts have the same images, and so the same total. */
  lemma OrderDoesNotMatter(a: seq<Counts>, b: seq<Counts>)
    requires forall id :: Largest(a, id) == Largest(b, id)
    ensures MergeAll(a) == MergeAll(b) && Total(MergeAll(a)) == Total(MergeAll(b))
  {
    forall id ensures id in MergeAll(a) <==> id in MergeAll(b) {
      MergeIsLargest(a, id);
      MergeIsLargest(b, id);
    }
    forall id | id in MergeAll(a) ensures MergeAll(a)[id] == MergeAll(b)[id] {
      MergeIsLargest(a, id);
      MergeIsLargest(b, id);
    }
  }

  predicate Positive(counts: Counts) {
    forall id :: id in counts ==> counts[id] > 0
  }

  lemma MergeOf(known: Counts, frame: Counts)
    requires Positive(known)
    ensures Positive(Merge(known, frame))
      && forall id :: Of(Merge(known, frame), id) == Max(Of(known, id), Of(frame, id))
  {
  }

  lemma SameCounts(a: Counts, b: Counts)
    requires Positive(a) && Positive(b) && forall id :: Of(a, id) == Of(b, id)
    ensures a == b
  {
    forall id ensures id in a <==> id in b {
      assert Of(a, id) == Of(b, id);
    }
    forall id | id in a ensures a[id] == b[id] {
      assert Of(a, id) == Of(b, id);
    }
  }

  lemma {:induction false} TotalMonotone(a: Counts, b: Counts)
    requires Positive(a) && forall id :: Of(a, id) <= Of(b, id)
    ensures Total(a) <= Total(b)
    decreases |a|
  {
    if |a| > 0 {
      var id := TotalPick(a);
      assert Of(a, id) <= Of(b, id);
      TotalAt(b, id);
      SmallerCounts(a, id);
      forall k ensures Of(a - {id}, k) <= Of(b - {id}, k) {
        assert Of(a, k) <= Of(b, k);
      }
      TotalMonotone(a - {id}, b - {id});
    }
  }

  /** One frame: the merged counts, unless they exceed the limit. */
  ghost function Next(known: Counts, frame: Counts): Option<Counts> {
    if Total(Merge(known, frame)) <= LIMIT then Some(Merge(known, frame)) else None
  }

  ghost function ObserveAll(frames: seq<Counts>): Option<Counts> {
    if frames == [] then Some(map[])
    else match ObserveAll(frames[..|frames| - 1])
      case None => None
      case Some(known) => Next(known, frames[|frames| - 1])
  }

  lemma {:induction false} MergeAllPositive(frames: seq<Counts>)
    ensures Positive(MergeAll(frames))
  {
    if frames != [] {
      MergeAllPositive(frames[..|frames| - 1]);
      MergeOf(MergeAll(frames[..|frames| - 1]), frames[|frames| - 1]);
    }
  }

  /** Main result: a run is accepted if and only if its largest counts add up to at most 64, and then they are what is
      kept, one by one and in total. */
  lemma {:induction false} RunIsLargest(frames: seq<Counts>)
    ensures ObserveAll(frames) == if Total(MergeAll(frames)) <= LIMIT then Some(MergeAll(frames)) else None
  {
    if frames == [] {
      assert Total(map[]) == 0;
    } else {
      var front := frames[..|frames| - 1];
      RunIsLargest(front);
      MergeAllPositive(front);
      MergeAllPositive(frames);
      MergeOf(MergeAll(front), frames[|frames| - 1]);
      TotalMonotone(MergeAll(front), MergeAll(frames));
    }
  }

  /** So the order of the frames matters neither for acceptance nor for the count. */
  lemma ReorderedRun(a: seq<Counts>, b: seq<Counts>)
    requires forall id :: Largest(a, id) == Largest(b, id)
    ensures ObserveAll(a) == ObserveAll(b)
  {
    RunIsLargest(a);
    RunIsLargest(b);
    OrderDoesNotMatter(a, b);
  }

  /** The loop's state while the identities in `rest` are still to be visited. */
  ghost predicate Merging(known: Counts, frame: Counts, rest: set<string>, images: Counts, count: nat) {
    && rest <= frame.Keys && Positive(images) && count == Total(images)
    && forall id :: MergedAt(known, frame, rest, images, id)
  }

  predicate MergedAt(known: Counts, frame: Counts, rest: set<string>, images: Counts, id: string) {
    Of(images, id) == if id in frame && id !in rest then Max(Of(known, id), frame[id]) else Of(known, id)
  }

  lemma MergingNext(known: Counts, frame: Counts, rest: set<string>, id: string, images: Counts, count: nat)
    requires Merging(known, frame, rest, images, count) && id in rest
    ensures frame[id] <= Of(images, id) ==> Merging(known, frame, rest - {id}, images, count)
    ensures frame[id] > Of(images, id) ==>
      Merging(known, frame, rest - {id}, images[id := frame[id]], count + (frame[id] - Of(images, id)))
  {
    TotalSet(images, id, frame[id]);
    var after := if frame[id] > Of(images, id) then images[id := frame[id]] else images;
    var left := rest - {id};
    forall k ensures MergedAt(known, frame, left, after, k) {
      assert MergedAt(known, frame, rest, images, k);
    }
  }

  lemma MergingOver(known: Counts, frame: Counts, rest: set<string>, images: Counts, count: nat)
    requires Positive(known) && Merging(known, frame, rest, images, count)
    ensures count <= Total(Merge(known, frame))
    ensures rest == {} ==> images == Merge(known, frame)
  {
    MergeOf(known, frame);
    forall id
      ensures Of(images, id) <= Of(Merge(known, frame), id)
        && (rest == {} ==> Of(images, id) == Of(Merge(known, frame), id))
    {
      assert MergedAt(known, frame, rest, images, id);
    }
    TotalMonotone(images, Merge(known, frame));
    if rest == {} {
      SameCounts(images, Merge(known, frame));
    }
  }

  class ImageObservation {
    var images: Counts
    var count: nat

    /** The count is the sum over identities, and within the limit. */
    ghost predicate Valid()
      reads this
    {
      count == Total(images) <= LIMIT && Positive(images)
    }

    constructor ()
      ensures Valid() && images == map[]
    {
      images, count := map[], 0;
    }

    /** `observeGeminiImages`, visiting the frame's identities in any order: it succeeds exactly when the merged counts
        stay within the limit. */
    method Observe(frame: Counts) returns (ok: bool)
      requires Valid()
      modifies this
      ensures ok <==> Next(old(images), frame).Some?
      ensures ok ==> Valid() && Next(old(images), frame) == Some(images)
    {
      ghost var known := images;
      var rest := frame.Keys;
      while rest != {}
        invariant Merging(known, frame, rest, images, count) && count <= LIMIT
        decreases |rest|
      {
        var id :| id in rest;
        var n := frame[id];
        var previous := Of(images, id);
        MergingNext(known, frame, rest, id, images, count);
        rest := rest - {id};
        if n > previous {
          if count + n - previous > LIMIT {
            MergingOver(known, frame, rest, images[id := n], count + (n - previous));
            return false;
          }
          count := count + n - previous;
          images := images[id := n];
        }
      }
      MergingOver(known, frame, rest, images, count);
      ok := true;
    }
  }

  /** The counts of a frame's images, one identity per image, refused beyond the limit. */
  method CountOutputs(images: seq<string>) returns (ok: bool, counts: Counts)
    ensures ok <==> |images| <= LIMIT
    ensures ok ==> forall id :: Of(counts, id) == multiset(images)[id]
  {
    counts := map[];
    for k := 0 to |images|
      invariant k <= LIMIT
      invariant forall id :: Of(counts, id) == multiset(images[..k])[id]
    {
      if k + 1 > LIMIT {
        return false, map[];
      }
      assert images[..k + 1] == images[..k] + [images[k]];
      counts := counts[images[k] := Of(counts, images[k]) + 1];
    }
    assert images[..|images|] == images;
    ok := true;
  }
}
