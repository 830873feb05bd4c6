/**
 * The manual-hiring office (class `Office` of game/public/components/pixi/office.js),
 * reduced to its bookkeeping: an append-only arena of candidates addressed by a
 * never-reused counter, the list of hired candidates, the desk counter checked
 * against the stage's hiring goal, the single spotlight slot, and the stage selector.
 */
module ManualOffice {
  import opened Common

  /** The two person sprites a candidate can be drawn with. */
  datatype Texture = Yellow | Blue

  /** One record of the office's candidate collection (`cvCollection.smallOfficeStage`). */
  datatype CvRecord = CvRecord(name: string, color: string)

  /** The per-stage text: hiring goal, time budget, task description and retry message. */
  datatype StageText = StageText(hiringGoal: nat, duration: nat, taskDescription: string, retryMessage: string)

  /** The texts of the small, medium and large office stages. */
  datatype StageTexts = StageTexts(small: StageText, medium: StageText, large: StageText)

  /** A candidate in the arena: identity, line position, sprite and spotlight flag. */
  datatype Candidate = Candidate(id: nat, uvX: real, texture: Texture, inSpotlight: bool)

  /** Line position of the first person, and the distance between neighbours (screen fractions). */
  const PersonStartX: real := 0.22
  const XOffset: real := 0.05

  /** Candidate pool sizes of the small, medium and large stages. */
  const SmallPool: nat := 7
  const MediumPool: nat := 10
  const LargePool: nat := 15

  /** The sprite of a candidate whose record has colour `color`. */
  function TextureFor(color: string): Texture
  {
    if color == "yellow" then Yellow else Blue
  }

  /** The line position of the person placed k-th by one batch. */
  function LinePosition(k: nat): real
  {
    PersonStartX + XOffset * k as real
  }

  /** How many people `draw` adds for stage `stageNum`. */
  function PoolSize(stageNum: int): nat
  {
    if stageNum == 0 then SmallPool else if stageNum == 1 then MediumPool else LargePool
  }

  /** The stage text `start` selects, or None for a stage number outside 0, 1, 2. */
  function StageTextFor(txt: StageTexts, stageNum: int): Option<StageText>
  {
    match stageNum
    case 0 => Some(txt.small)
    case 1 => Some(txt.medium)
    case 2 => Some(txt.large)
    case _ => None
  }

  /** The candidate created at position `x` when the counter stands at `id`. */
  function NewCandidate(cv: seq<CvRecord>, id: nat, x: real): Candidate
    requires id < |cv|
  {
    Candidate(id, x, TextureFor(cv[id].color), false)
  }

  /** The candidates one batch of `count` appends when the counter stands at `first`. */
  function Batch(cv: seq<CvRecord>, first: nat, count: nat): (b: seq<Candidate>)
    requires first + count <= |cv|
    ensures |b| == count
  {
    if count == 0 then [] else Batch(cv, first, count - 1) + [NewCandidate(cv, first + count - 1, LinePosition(count - 1))]
  }

  /** The k-th candidate of a batch has id `first + k` and stands at line position k. */
  lemma {:induction false} BatchAt(cv: seq<CvRecord>, first: nat, count: nat, k: nat)
    requires first + count <= |cv|
    requires k < count
    ensures Batch(cv, first, count)[k] == NewCandidate(cv, first + k, LinePosition(k))
    ensures Batch(cv, first, count)[k].id == first + k
    ensures Batch(cv, first, count)[k].uvX == PersonStartX + XOffset * k as real
  {
    if k < count - 1 {
      BatchAt(cv, first, count - 1, k);
    }
  }

  /** Neighbours in a batch have consecutive ids and stand exactly one offset apart. */
  lemma {:induction false} BatchSpacing(cv: seq<CvRecord>, first: nat, count: nat, k: nat)
    requires first + count <= |cv|
    requires k + 1 < count
    ensures Batch(cv, first, count)[k + 1].id == Batch(cv, first, count)[k].id + 1
    ensures Batch(cv, first, count)[k + 1].uvX == Batch(cv, first, count)[k].uvX + XOffset
  {
    BatchAt(cv, first, count, k);
    BatchAt(cv, first, count, k + 1);
  }

  /**
   * The arena invariant: entry i has identity i and the sprite of record i, so the
   * arena can be addressed by identity.
   */
  ghost predicate Arena(cv: seq<CvRecord>, people: seq<Candidate>)
  {
    |people| <= |cv| &&
    forall i :: 0 <= i < |people| ==> people[i].id == i && people[i].texture == TextureFor(cv[i].color)
  }

  /**
   * How many completion signals `k` accepts produce when the desk counter starts at
   * `taken` and the goal is `goal`: each accept raises the counter by one and signals
   * when the new value equals the goal.
   */
  function Signals(taken: nat, goal: nat, k: nat): nat
  {
    if k == 0 then 0 else Signals(taken, goal, k - 1) + (if taken + k == goal then 1 else 0)
  }

  /** The goal is signalled exactly once if it lies in (taken, taken + k], and never otherwise. */
  lemma {:induction false} SignalsAtMostOnce(taken: nat, goal: nat, k: nat)
    ensures Signals(taken, goal, k) == if taken < goal <= taken + k then 1 else 0
  {
    if k > 0 {
      SignalsAtMostOnce(taken, goal, k - 1);
    }
  }

  class Office {
    /** The candidate collection, indexed by identity. */
    const cv: seq<CvRecord>
    /** The three stage texts. */
    const txt: StageTexts

    var uniqueCandidateIndex: nat
    var currentStage: int
    var takenDesks: nat
    /** The arena: candidates are addressed by index and never removed. */
    var allPeople: seq<Candidate>
    /** Hired candidates, as indices into `allPeople`. */
    var hiredPeople: seq<nat>
    var toReplaceX: real
    /** The spotlight: the arena index of the candidate under decision, if any. */
    var candidateInSpot: Option<nat>
    /** The text of the selected stage; None until a stage is started. */
    var stageText: Option<StageText>
    /** Completion signals emitted since the stage was last drawn. */
    ghost var signalled: nat

    ghost predicate Valid()
      reads this
    {
      Arena(cv, allPeople) &&
      |allPeople| == uniqueCandidateIndex &&
      (forall j :: 0 <= j < |hiredPeople| ==> hiredPeople[j] < |allPeople|) &&
      (candidateInSpot.Some? ==> candidateInSpot.value < |allPeople|)
    }

    /** The completion signals of the current stage session are those its accepts produced. */
    ghost predicate Session()
      reads this
    {
      signalled == (if stageText.Some? then Signals(0, stageText.value.hiringGoal, takenDesks) else 0)
    }

    constructor (cv: seq<CvRecord>, txt: StageTexts)
      ensures Valid() && Session()
      ensures this.cv == cv && this.txt == txt
      ensures uniqueCandidateIndex == 0 && currentStage == 0 && takenDesks == 0
      ensures allPeople == [] && hiredPeople == [] && toReplaceX == 0.0
      ensures candidateInSpot == None && stageText == None
    {
      this.cv := cv;
      this.txt := txt;
      uniqueCandidateIndex := 0;
      currentStage := 0;
      takenDesks := 0;
      allPeople := [];
      hiredPeople := [];
      toReplaceX := 0.0;
      candidateInSpot := None;
      stageText := None;
      signalled := 0;
    }

    /**
     * Resets the desks and the spotlight, records the stage and adds the stage's pool:
     * 7 people for stage 0, 10 for stage 1 and 15 for any other stage number. The
     * identity counter is not reset, so numbering continues across stages and retries.
     */
    method Draw(stageNum: int)
      requires Valid()
      requires stageText.Some?
      requires uniqueCandidateIndex + PoolSize(stageNum) <= |cv|
      modifies this
      ensures Valid() && Session()
      ensures candidateInSpot == None && takenDesks == 0 && currentStage == stageNum
      ensures allPeople == old(allPeople) + Batch(cv, old(uniqueCandidateIndex), PoolSize(stageNum))
      ensures uniqueCandidateIndex == old(uniqueCandidateIndex) + PoolSize(stageNum)
      ensures hiredPeople == old(hiredPeople) && stageText == old(stageText) && toReplaceX == old(toReplaceX)
      ensures signalled == 0
    {
      candidateInSpot := None;
      takenDesks := 0;
      signalled := 0;
      currentStage := stageNum;
      if stageNum == 0 {
        AddPeople(0, SmallPool);
      } else {
        var toAdd := if stageNum == 1 then MediumPool else LargePool;
        AddPeople(uniqueCandidateIndex, toAdd);
      }
    }

    /**
     * Selects the text of stage 0, 1 or 2 and draws the stage; any other stage number
     * keeps the previous text.
     */
    method Start(stageNum: int)
      requires Valid()
      requires StageTextFor(txt, stageNum).Some? || stageText.Some?
      requires uniqueCandidateIndex + PoolSize(stageNum) <= |cv|
      modifies this
      ensures Valid() && Session()
      ensures stageText == if StageTextFor(txt, stageNum).Some? then StageTextFor(txt, stageNum) else old(stageText)
      ensures candidateInSpot == None && takenDesks == 0 && currentStage == stageNum
      ensures allPeople == old(allPeople) + Batch(cv, old(uniqueCandidateIndex), PoolSize(stageNum))
      ensures uniqueCandidateIndex == old(uniqueCandidateIndex) + PoolSize(stageNum)
      ensures hiredPeople == old(hiredPeople) && toReplaceX == old(toReplaceX)
      ensures signalled == 0
    {
      match stageNum {
        case 0 => stageText := Some(txt.small);
        case 1 => stageText := Some(txt.medium);
        case 2 => stageText := Some(txt.large);
        case _ =>
      }
      Draw(stageNum);
    }

    /**
     * Creates one candidate at line position `thisX` with the next identity and the
     * sprite its record's colour selects, appends it to the arena and advances the counter.
     */
    method PlaceCandidate(thisX: real)
      requires Valid()
      requires uniqueCandidateIndex < |cv|
      modifies this
      ensures Valid()
      ensures allPeople == old(allPeople) + [NewCandidate(cv, old(uniqueCandidateIndex), thisX)]
      ensures allPeople[|allPeople| - 1].id == old(uniqueCandidateIndex)
      ensures allPeople[|allPeople| - 1].texture == Yellow <==> cv[old(uniqueCandidateIndex)].color == "yellow"
      ensures uniqueCandidateIndex == old(uniqueCandidateIndex) + 1
      ensures takenDesks == old(takenDesks) && currentStage == old(currentStage)
      ensures hiredPeople == old(hiredPeople) && candidateInSpot == old(candidateInSpot)
      ensures stageText == old(stageText) && toReplaceX == old(toReplaceX) && signalled == old(signalled)
    {
      var texture := TextureFor(cv[uniqueCandidateIndex].color);
      var person := Candidate(uniqueCandidateIndex, thisX, texture, false);
      allPeople := allPeople + [person];
      uniqueCandidateIndex := uniqueCandidateIndex + 1;
    }

    /**
     * Places `count` candidates, the k-th at line position k. `startIndex` only shifts
     * the loop bounds; identities come from the counter.
     */
    method AddPeople(startIndex: int, count: nat)
      requires Valid()
      requires uniqueCandidateIndex + count <= |cv|
      modifies this
      ensures Valid()
      ensures allPeople == old(allPeople) + Batch(cv, old(uniqueCandidateIndex), count)
      ensures uniqueCandidateIndex == old(uniqueCandidateIndex) + count
      ensures takenDesks == old(takenDesks) && currentStage == old(currentStage)
      ensures hiredPeople == old(hiredPeople) && candidateInSpot == old(candidateInSpot)
      ensures stageText == old(stageText) && toReplaceX == old(toReplaceX) && signalled == old(signalled)
    {
      var i := startIndex;
      while i < startIndex + count
        invariant startIndex <= i <= startIndex + count
        invariant Valid()
        invariant uniqueCandidateIndex == old(uniqueCandidateIndex) + (i - startIndex)
        invariant allPeople == old(allPeople) + Batch(cv, old(uniqueCandidateIndex), i - startIndex)
        invariant takenDesks == old(takenDesks) && currentStage == old(currentStage)
        invariant hiredPeople == old(hiredPeople) && candidateInSpot == old(candidateInSpot)
        invariant stageText == old(stageText) && toReplaceX == old(toReplaceX) && signalled == old(signalled)
      {
        var orderInLine := i - startIndex;
        PlaceCandidate(LinePosition(orderInLine));
        i := i + 1;
      }
    }

    /** Puts arena entry `i` in the spotlight (the write the candidate's click handler makes). */
    method Select(i: nat)
      requires Valid()
      requires i < |allPeople|
      modifies this
      ensures Valid()
      ensures candidateInSpot == Some(i)
      ensures allPeople == old(allPeople)[i := old(allPeople)[i].(inSpotlight := true)]
      ensures uniqueCandidateIndex == old(uniqueCandidateIndex) && takenDesks == old(takenDesks)
      ensures currentStage == old(currentStage) && hiredPeople == old(hiredPeople)
      ensures stageText == old(stageText) && toReplaceX == old(toReplaceX) && signalled == old(signalled)
    {
      allPeople := allPeople[i := allPeople[i].(inSpotlight := true)];
      candidateInSpot := Some(i);
    }

    /**
     * Hires the candidate in the spotlight: one more desk is taken, the candidate joins
     * the hired list, one replacement is placed at its line position and the spotlight
     * is cleared. Returns Some(stage) exactly when the desks now meet the hiring goal
     * (the MANUAL_STAGE_COMPLETE event, which also advances the game to the next stage).
     */
    method Accept() returns (completed: Option<int>)
      requires Valid() && Session()
      requires candidateInSpot.Some?
      requires stageText.Some?
      requires uniqueCandidateIndex < |cv|
      modifies this
      ensures Valid() && Session()
      ensures takenDesks == old(takenDesks) + 1
      ensures hiredPeople == old(hiredPeople) + [old(candidateInSpot).value]
      ensures toReplaceX == old(allPeople)[old(candidateInSpot).value].uvX
      ensures allPeople == old(allPeople) + [NewCandidate(cv, old(uniqueCandidateIndex), toReplaceX)]
      ensures uniqueCandidateIndex == old(uniqueCandidateIndex) + 1
      ensures candidateInSpot == None
      ensures stageText == old(stageText) && currentStage == old(currentStage)
      ensures completed.Some? <==> takenDesks == stageText.value.hiringGoal
      ensures completed.Some? ==> completed.value == currentStage
      ensures signalled == old(signalled) + (if completed.Some? then 1 else 0)
      ensures signalled <= 1
    {
      takenDesks := takenDesks + 1;
      var hiredPerson := candidateInSpot.value;
      hiredPeople := hiredPeople + [hiredPerson];
      toReplaceX := allPeople[hiredPerson].uvX;
      PlaceCandidate(toReplaceX);
      candidateInSpot := None;
      if takenDesks == stageText.value.hiringGoal {
        completed := Some(currentStage);
        signalled := signalled + 1;
      } else {
        completed := None;
      }
      SignalsAtMostOnce(0, stageText.value.hiringGoal, takenDesks);
    }

    /**
     * Turns the candidate in the spotlight away: desks and hired list are unchanged,
     * one replacement is placed at its line position and the spotlight is cleared.
     */
    method Reject()
      requires Valid()
      requires candidateInSpot.Some?
      requires uniqueCandidateIndex < |cv|
      modifies this
      ensures Valid()
      ensures takenDesks == old(takenDesks) && hiredPeople == old(hiredPeople)
      ensures toReplaceX == old(allPeople)[old(candidateInSpot).value].uvX
      ensures allPeople == old(allPeople) + [NewCandidate(cv, old(uniqueCandidateIndex), toReplaceX)]
      ensures uniqueCandidateIndex == old(uniqueCandidateIndex) + 1
      ensures candidateInSpot == None
      ensures stageText == old(stageText) && currentStage == old(currentStage) && signalled == old(signalled)
    {
      var rejectedPerson := candidateInSpot.value;
      toReplaceX := allPeople[rejectedPerson].uvX;
      PlaceCandidate(toReplaceX);
      candidateInSpot := None;
    }

    /**
     * Sends the candidate in the spotlight back to the line: only its spotlight flag is
     * cleared. The spotlight slot itself keeps pointing at it.
     */
    method ReturnCandidate()
      requires Valid()
      requires candidateInSpot.Some?
      modifies this
      ensures Valid()
      ensures allPeople == old(allPeople)[old(candidateInSpot).value := old(allPeople)[old(candidateInSpot).value].(inSpotlight := false)]
      ensures candidateInSpot == old(candidateInSpot)
      ensures uniqueCandidateIndex == old(uniqueCandidateIndex) && takenDesks == old(takenDesks)
      ensures currentStage == old(currentStage) && hiredPeople == old(hiredPeople)
      ensures stageText == old(stageText) && toReplaceX == old(toReplaceX) && signalled == old(signalled)
    {
      var c := candidateInSpot.value;
      allPeople := allPeople[c := allPeople[c].(inSpotlight := false)];
    }
  }

  /**
   * A client: stage 0 with a hiring goal of 3. Three accepts signal completion once,
   * on the third, and each places a replacement, so stage 1 numbers its pool from 10.
   */
  method StageZeroScenario(cv: seq<CvRecord>, txt: StageTexts)
    requires |cv| >= 20
    requires txt.small.hiringGoal == 3
  {
    var office := new Office(cv, txt);
    office.Start(0);
    assert |office.allPeople| == 7;
    office.Select(0);
    var c1 := office.Accept();
    office.Select(1);
    var c2 := office.Accept();
    office.Select(2);
    var c3 := office.Accept();
    assert c1 == None && c2 == None && c3 == Some(0);
    assert office.hiredPeople == [0, 1, 2] && office.uniqueCandidateIndex == 10;
    office.Start(1);
    BatchAt(cv, 10, MediumPool, 0);
    assert office.allPeople[10].id == 10 && |office.allPeople| == 20;
  }
}
