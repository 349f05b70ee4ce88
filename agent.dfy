/** The session agent: the question catalog, the responses, and the registry of segments
    built during the session, kept both as a list and as a dictionary by id. */
module Agents {
  import opened Wrappers
  import opened OrderedDicts
  import opened Specs
  import opened Frames
  import opened Engine

  /** `{q.question_id: q for q in questions}`. */
  function QuestionIndex(questions: seq<Question>): map<string, Question>
    decreases |questions|
  {
    if questions == [] then map[]
    else QuestionIndex(questions[..|questions| - 1])[questions[|questions| - 1].questionId := questions[|questions| - 1]]
  }

  ghost function QuestionIds(questions: seq<Question>): set<string> {
    set q | q in questions :: q.questionId
  }

  /** The index has an entry for exactly the ids the catalog uses. */
  lemma {:induction false} QuestionIndexKeys(questions: seq<Question>)
    ensures QuestionIndex(questions).Keys == QuestionIds(questions)
    decreases |questions|
  {
    if questions != [] {
      var init, last := questions[..|questions| - 1], questions[|questions| - 1];
      QuestionIndexKeys(init);
      assert questions == init + [last];
      assert QuestionIds(questions) == QuestionIds(init) + {last.questionId} by {
        forall x | x in QuestionIds(questions)
          ensures x in QuestionIds(init) + {last.questionId}
        {
          var q :| q in questions && q.questionId == x;
          if q != last {
            assert q in init;
          }
        }
      }
    }
  }

  /** A later question overrides an earlier one with the same id: the index maps each id
      to the last question carrying it. */
  lemma {:induction false} QuestionIndexLastWins(questions: seq<Question>, i: int)
    requires 0 <= i < |questions| && LastWithId(questions, i)
    ensures questions[i].questionId in QuestionIndex(questions)
    ensures QuestionIndex(questions)[questions[i].questionId] == questions[i]
    decreases |questions|
  {
    var init := questions[..|questions| - 1];
    if i < |questions| - 1 {
      assert questions[i] == init[i];
      assert LastWithId(init, i) by {
        forall j | i < j < |init|
          ensures init[j].questionId != init[i].questionId
        {
          assert init[j] == questions[j];
        }
      }
      QuestionIndexLastWins(init, i);
    }
  }

  /** No later question shares the id of the question at `i`. */
  ghost predicate LastWithId(questions: seq<Question>, i: int)
    requires 0 <= i < |questions|
  {
    forall j :: i < j < |questions| ==> questions[j].questionId != questions[i].questionId
  }

  /** No two segments of the list share an id. */
  ghost predicate DistinctIds(segments: seq<SegmentSpec>) {
    forall i, j :: 0 <= i < j < |segments| ==> segments[i].segmentId != segments[j].segmentId
  }

  ghost function Ids(segments: seq<SegmentSpec>): set<string> {
    set s | s in segments :: s.segmentId
  }

  /** `[s for s in segments if s.segment_id != id]`. */
  function WithoutId(segments: seq<SegmentSpec>, id: string): seq<SegmentSpec>
    decreases |segments|
  {
    if segments == [] then []
    else
      var last := segments[|segments| - 1];
      WithoutId(segments[..|segments| - 1], id) + if last.segmentId != id then [last] else []
  }

  /** The filter keeps exactly the segments with another id. */
  lemma {:induction false} WithoutIdMembers(segments: seq<SegmentSpec>, id: string)
    ensures forall s :: s in WithoutId(segments, id) <==> s in segments && s.segmentId != id
    decreases |segments|
  {
    if segments != [] {
      var init, last := segments[..|segments| - 1], segments[|segments| - 1];
      WithoutIdMembers(init, id);
      assert segments == init + [last];
    }
  }

  /** Filtering keeps the ids distinct. */
  lemma {:induction false} WithoutIdDistinct(segments: seq<SegmentSpec>, id: string)
    requires DistinctIds(segments)
    ensures DistinctIds(WithoutId(segments, id))
    decreases |segments|
  {
    if segments != [] {
      var init, last := segments[..|segments| - 1], segments[|segments| - 1];
      assert DistinctIds(init) by {
        forall i, j | 0 <= i < j < |init|
          ensures init[i].segmentId != init[j].segmentId
        {
          assert init[i] == segments[i] && init[j] == segments[j];
        }
      }
      WithoutIdDistinct(init, id);
      WithoutIdMembers(init, id);
      var kept := WithoutId(init, id);
      if last.segmentId != id {
        var r := kept + [last];
        forall i, j | 0 <= i < j < |r|
          ensures r[i].segmentId != r[j].segmentId
        {
          if j == |r| - 1 {
            assert r[i] == kept[i] && kept[i] in init;
            var k :| 0 <= k < |init| && init[k] == kept[i];
            assert segments[k] == init[k];
          } else {
            assert r[i] == kept[i] && r[j] == kept[j];
          }
        }
      } else {
        assert WithoutId(segments, id) == kept + [];
        assert kept + [] == kept;
      }
    }
  }

  lemma {:induction false} WithoutIdConcat(a: seq<SegmentSpec>, b: seq<SegmentSpec>, id: string)
    ensures WithoutId(a + b, id) == WithoutId(a, id) + WithoutId(b, id)
    decreases |b|
  {
    if b == [] {
      assert a + b == a;
      assert WithoutId(a, id) + [] == WithoutId(a, id);
    } else {
      var init, last := b[..|b| - 1], b[|b| - 1];
      var tail := if last.segmentId != id then [last] else [];
      assert (a + b)[..|a + b| - 1] == a + init && (a + b)[|a + b| - 1] == last;
      assert WithoutId(a + b, id) == WithoutId(a + init, id) + tail;
      assert WithoutId(b, id) == WithoutId(init, id) + tail;
      WithoutIdConcat(a, init, id);
      assert (WithoutId(a, id) + WithoutId(init, id)) + tail == WithoutId(a, id) + (WithoutId(init, id) + tail);
    }
  }

  /** The list after `add_segment(segment)`: every segment with that id removed, the new
      one appended. */
  function AddedSegments(segments: seq<SegmentSpec>, segment: SegmentSpec): (r: seq<SegmentSpec>)
    ensures |r| > 0 && r[|r| - 1] == segment
  {
    WithoutId(segments, segment.segmentId) + [segment]
  }

  /** The new segment is last and no other element carries its id. */
  lemma AddedSegmentIsLastOfItsId(segments: seq<SegmentSpec>, segment: SegmentSpec)
    ensures var r := AddedSegments(segments, segment);
            r[|r| - 1] == segment && forall i :: 0 <= i < |r| - 1 ==> r[i].segmentId != segment.segmentId
  {
    var r := AddedSegments(segments, segment);
    var kept := WithoutId(segments, segment.segmentId);
    WithoutIdMembers(segments, segment.segmentId);
    forall i | 0 <= i < |r| - 1
      ensures r[i].segmentId != segment.segmentId
    {
      assert r[i] == kept[i] && kept[i] in kept;
    }
  }

  /** The segments with other ids keep their relative order: dropping the new id again
      gives exactly the old list without it. */
  lemma AddKeepsOthersInOrder(segments: seq<SegmentSpec>, segment: SegmentSpec)
    ensures WithoutId(AddedSegments(segments, segment), segment.segmentId) == WithoutId(segments, segment.segmentId)
  {
    var id := segment.segmentId;
    var kept := WithoutId(segments, id);
    WithoutIdConcat(kept, [segment], id);
    WithoutIdIdempotent(segments, id);
    assert [segment][..0] == [];
  }

  lemma {:induction false} WithoutIdIdempotent(segments: seq<SegmentSpec>, id: string)
    ensures WithoutId(WithoutId(segments, id), id) == WithoutId(segments, id)
    decreases |segments|
  {
    if segments != [] {
      var init := segments[..|segments| - 1];
      var last := segments[|segments| - 1];
      var tail := if last.segmentId != id then [last] else [];
      assert WithoutId(segments, id) == WithoutId(init, id) + tail;
      WithoutIdIdempotent(init, id);
      WithoutIdConcat(WithoutId(init, id), tail, id);
      assert WithoutId(tail, id) == tail by {
        if tail != [] {
          assert tail[..0] == [];
        }
      }
    }
  }

  /** The list and the dictionary agree: distinct ids in the list, the same id set in both,
      and the dictionary maps each id to the list's segment with that id. */
  ghost predicate Registry(segments: seq<SegmentSpec>, byId: Dict<string, SegmentSpec>) {
    && DistinctIds(segments)
    && byId.Valid()
    && byId.entries.Keys == Ids(segments)
    && forall s :: s in segments ==> byId.entries[s.segmentId] == s
  }

  /** `add_segment` keeps the list and the dictionary in agreement. */
  lemma AddSegmentKeepsRegistry(segments: seq<SegmentSpec>, byId: Dict<string, SegmentSpec>, segment: SegmentSpec)
    requires Registry(segments, byId)
    ensures Registry(AddedSegments(segments, segment), Put(byId, segment.segmentId, segment))
  {
    var id := segment.segmentId;
    var r := AddedSegments(segments, segment);
    var d := Put(byId, id, segment);
    AddedDistinct(segments, segment);
    AddedIds(segments, segment);
    WithoutIdMembers(segments, id);
    assert d.entries == byId.entries[id := segment];
    assert d.entries.Keys == byId.entries.Keys + {id};
    forall s | s in r
      ensures d.entries[s.segmentId] == s
    {
      if s != segment {
        assert s in WithoutId(segments, id);
        assert s in segments && s.segmentId != id;
        assert byId.entries[s.segmentId] == s;
      }
    }
  }

  /** The list after `add_segment` keeps its ids distinct. */
  lemma AddedDistinct(segments: seq<SegmentSpec>, segment: SegmentSpec)
    requires DistinctIds(segments)
    ensures DistinctIds(AddedSegments(segments, segment))
  {
    var id := segment.segmentId;
    var kept := WithoutId(segments, id);
    var r := AddedSegments(segments, segment);
    WithoutIdMembers(segments, id);
    WithoutIdDistinct(segments, id);
    forall i, j | 0 <= i < j < |r|
      ensures r[i].segmentId != r[j].segmentId
    {
      if j == |r| - 1 {
        assert r[i] == kept[i] && kept[i] in kept;
      } else {
        assert r[i] == kept[i] && r[j] == kept[j];
      }
    }
  }

  /** The ids after `add_segment` are the old ids and the new one. */
  lemma AddedIds(segments: seq<SegmentSpec>, segment: SegmentSpec)
    ensures Ids(AddedSegments(segments, segment)) == Ids(segments) + {segment.segmentId}
  {
    var id := segment.segmentId;
    var kept := WithoutId(segments, id);
    var r := AddedSegments(segments, segment);
    WithoutIdMembers(segments, id);
    assert forall s :: s in r <==> s in kept || s == segment;
    forall x | x in Ids(segments) + {id}
      ensures x in Ids(r)
    {
      if x != id {
        var s :| s in segments && s.segmentId == x;
        assert s in kept;
      }
    }
  }

  /** Adding a segment twice leaves the state adding it once does. */
  lemma AddSegmentIdempotent(segments: seq<SegmentSpec>, byId: Dict<string, SegmentSpec>, segment: SegmentSpec)
    ensures AddedSegments(AddedSegments(segments, segment), segment) == AddedSegments(segments, segment)
    ensures var once := Put(byId, segment.segmentId, segment);
            Put(once, segment.segmentId, segment) == once
  {
    AddKeepsOthersInOrder(segments, segment);
  }

  /** In an agreeing registry the dictionary's value for an id is the unique list element
      carrying it. */
  lemma RegistryLookupIsUnique(segments: seq<SegmentSpec>, byId: Dict<string, SegmentSpec>, id: string)
    requires Registry(segments, byId) && id in byId.entries
    ensures byId.entries[id] in segments
    ensures forall s :: s in segments && s.segmentId == id ==> s == byId.entries[id]
  {
    var s :| s in segments && s.segmentId == id;
  }

  /** The list after adding each segment of `added` in turn. */
  function AddedAll(segments: seq<SegmentSpec>, added: seq<SegmentSpec>): seq<SegmentSpec>
    decreases |added|
  {
    if added == [] then segments
    else AddedSegments(AddedAll(segments, added[..|added| - 1]), added[|added| - 1])
  }

  /** The dictionary writes of adding each segment of `added` in turn. */
  function IdPairs(added: seq<SegmentSpec>): (kvs: seq<(string, SegmentSpec)>)
    ensures |kvs| == |added|
    ensures forall i :: 0 <= i < |added| ==> kvs[i] == (added[i].segmentId, added[i])
  {
    seq(|added|, i requires 0 <= i < |added| => (added[i].segmentId, added[i]))
  }

  /** Adding several segments keeps the list and the dictionary in agreement. */
  lemma {:induction false} AddAllKeepsRegistry(segments: seq<SegmentSpec>, byId: Dict<string, SegmentSpec>, added: seq<SegmentSpec>)
    requires Registry(segments, byId)
    ensures Registry(AddedAll(segments, added), PutAll(byId, IdPairs(added)))
    decreases |added|
  {
    if added != [] {
      var init := added[..|added| - 1];
      var last := added[|added| - 1];
      assert IdPairs(added)[..|added| - 1] == IdPairs(init);
      AddAllKeepsRegistry(segments, byId, init);
      AddSegmentKeepsRegistry(AddedAll(segments, init), PutAll(byId, IdPairs(init)), last);
    }
  }

  /** Each added segment is registered under its id unless a later one replaces it, and
      the segment last added under an id is the one the dictionary holds. */
  lemma AddedAllRegistersLast(byId: Dict<string, SegmentSpec>, added: seq<SegmentSpec>, i: nat)
    requires i < |added|
    requires forall j :: i < j < |added| ==> added[j].segmentId != added[i].segmentId
    ensures added[i].segmentId in PutAll(byId, IdPairs(added)).entries
    ensures PutAll(byId, IdPairs(added)).entries[added[i].segmentId] == added[i]
  {
    PutAllLast(byId, IdPairs(added), i);
  }

  class Agent {
    const questions: seq<Question>
    const questionsById: map<string, Question>
    const responses: Frame
    /** The engine's collaborators, which the executor gets from its own modules. */
    const ext: Externals
    var segments: seq<SegmentSpec>
    var segmentsById: Dict<string, SegmentSpec>

    ghost predicate Valid()
      reads this
    {
      responses.Valid() && ext.WellBehaved() && Registry(segments, segmentsById)
    }

    /** The executor the agent builds: its state, and base-size thresholds 30 and 100. */
    function ExecutorEnv(): Environment
      reads this
    {
      Environment(responses, questionsById, segmentsById, 30, 100, ext)
    }

    constructor (questions: seq<Question>, responses: Frame, ext: Externals)
      requires responses.Valid() && ext.WellBehaved()
      ensures Valid()
      ensures this.questions == questions && questionsById == QuestionIndex(questions)
      ensures this.responses == responses && this.ext == ext
      ensures segments == [] && segmentsById == Empty()
    {
      this.questions := questions;
      this.questionsById := QuestionIndex(questions);
      this.responses := responses;
      this.ext := ext;
      this.segments := [];
      this.segmentsById := Empty();
    }

    /** `add_segment`: inserts the segment, replacing any with the same id. */
    method AddSegment(segment: SegmentSpec)
      requires Valid()
      modifies this
      ensures Valid()
      ensures segments == AddedSegments(old(segments), segment)
      ensures segmentsById == Put(old(segmentsById), segment.segmentId, segment)
      ensures segmentsById.entries[segment.segmentId] == segment
      ensures forall id :: id in old(segmentsById.entries) && id != segment.segmentId ==>
        segmentsById.entries[id] == old(segmentsById.entries[id])
    {
      AddSegmentKeepsRegistry(segments, segmentsById, segment);
      segments := WithoutId(segments, segment.segmentId);
      segments := segments + [segment];
      segmentsById := Put(segmentsById, segment.segmentId, segment);
    }

    /** `execute_cuts`: a fresh executor over the session's state runs the batch. */
    method ExecuteCuts(cuts: seq<CutSpec>) returns (result: ExecutionResult)
      requires Valid()
      ensures result == BatchResult(ExecutorEnv(), cuts)
    {
      var executor := new Executor(responses, questionsById, Some(segmentsById), 30, 100, ext);
      result := executor.ExecuteCuts(cuts);
    }

    /** `execute_single_cut`: the batch of that one cut. */
    method ExecuteSingleCut(cut: CutSpec) returns (result: ExecutionResult)
      requires Valid()
      ensures result == BatchResult(ExecutorEnv(), [cut])
    {
      result := ExecuteCuts([cut]);
    }
  }
}
