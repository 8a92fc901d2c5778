/** The home page's "start learning" button: it picks the first poem not yet completed and
    navigates to the punch-in page for it. */
module Home {
  import opened Wrappers
  import opened Poems
  import opened Decimal
  import PunchIn

  /** The completed-id list read from storage; a missing key reads as the empty list. */
  function CompletedList(stored: Option<seq<int>>): (c: seq<int>)
    ensures stored.None? ==> c == []
    ensures stored.Some? ==> c == stored.value
  {
    if stored.Some? then stored.value else []
  }

  /** The position of the first poem, in dataset order, whose id is not in the completed list;
      None when every poem's id is in it (the search `POEMS.find`). */
  function FirstUncompletedIndex(poems: seq<Poem>, completed: seq<int>): (r: Option<nat>)
    ensures r.Some? ==> r.value < |poems| && poems[r.value].id !in completed
    ensures r.Some? ==> forall j :: 0 <= j < r.value ==> poems[j].id in completed
    ensures r.None? <==> forall j :: 0 <= j < |poems| ==> poems[j].id in completed
  {
    if |poems| == 0 then None
    else if poems[0].id !in completed then Some(0)
    else
      match FirstUncompletedIndex(poems[1..], completed)
      case None => None
      case Some(k) => Some(k + 1)
  }

  /** `uncompletedPoem?.id || 1`: the found poem's id, or 1 when none is found (an id of 0,
      being falsy, also gives 1). Any other result is the id of the first poem, in dataset
      order, whose id is not completed; when every poem is completed the result is 1. */
  function FirstUncompletedPoemId(poems: seq<Poem>, completed: seq<int>): (id: int)
    ensures id != 0
    ensures id != 1 ==> exists k :: 0 <= k < |poems| && poems[k].id == id && id !in completed
                                    && forall j :: 0 <= j < k ==> poems[j].id in completed
    ensures (forall j :: 0 <= j < |poems| ==> poems[j].id in completed) ==> id == 1
  {
    match FirstUncompletedIndex(poems, completed)
    case Some(k) => if poems[k].id != 0 then poems[k].id else 1
    case None => 1
  }

  /** With dense ids: the result is the id of the first uncompleted poem, so it is not in the
      completed list and every earlier id is; if every poem is completed it is 1. In every case
      it lies in 1..|poems| for a non-empty dataset. */
  lemma FirstUncompletedPoemIdSpec(poems: seq<Poem>, completed: seq<int>)
    requires DenseIds(poems)
    ensures var id := FirstUncompletedPoemId(poems, completed);
            && (|poems| > 0 ==> 1 <= id <= |poems|)
            && ((exists j :: 0 <= j < |poems| && poems[j].id !in completed) ==>
                  id !in completed && forall k :: 1 <= k < id ==> k in completed)
            && ((forall j :: 0 <= j < |poems| ==> poems[j].id in completed) ==> id == 1)
  {
    var id := FirstUncompletedPoemId(poems, completed);
    match FirstUncompletedIndex(poems, completed)
    case None =>
    case Some(i) =>
      forall k | 1 <= k < id
        ensures k in completed
      {
        assert poems[k - 1].id == k;
      }
  }

  /** With no completed list stored, the first poem is the target. */
  lemma NothingStoredTargetsFirstPoem(poems: seq<Poem>)
    requires |poems| > 0 && poems[0].id != 0
    ensures FirstUncompletedPoemId(poems, CompletedList(None)) == poems[0].id
  {
  }

  const PunchInPrefix: string := "/punch-in?poemId="

  /** handleStartLearning's navigation target `/punch-in?poemId=<id>`. */
  function StartLearningTarget(poems: seq<Poem>, completed: seq<int>): (url: string)
    ensures |url| > |PunchInPrefix| && url[..|PunchInPrefix|] == PunchInPrefix
  {
    PunchInPrefix + IntToString(FirstUncompletedPoemId(poems, completed))
  }

  /** The query value the target carries, as the punch-in page reads it back: present exactly
      when the URL starts with the punch-in prefix, and then the rest of the URL. */
  function TargetPoemIdParam(url: string): (p: Option<string>)
    ensures p.Some? <==> PunchInPrefix <= url
    ensures p.Some? ==> url == PunchInPrefix + p.value
  {
    if |url| >= |PunchInPrefix| && url[..|PunchInPrefix|] == PunchInPrefix
    then Some(url[|PunchInPrefix|..])
    else None
  }

  /** Round trip across the two pages: with dense ids, the punch-in page resolves the target's
      parameter back to exactly the id the home page chose. */
  lemma StartLearningRoundTrip(poems: seq<Poem>, completed: seq<int>)
    requires |poems| > 0 && DenseIds(poems)
    ensures PunchIn.ResolvePoemId(TargetPoemIdParam(StartLearningTarget(poems, completed)), |poems|)
            == FirstUncompletedPoemId(poems, completed)
  {
    FirstUncompletedPoemIdSpec(poems, completed);
    var id := FirstUncompletedPoemId(poems, completed);
    var url := StartLearningTarget(poems, completed);
    assert url[|PunchInPrefix|..] == NatToString(id);
    PunchIn.ResolveWrittenId(id, |poems|);
  }
}
