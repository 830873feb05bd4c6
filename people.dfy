/**
 * The ML-lab people line (the default class of game/public/components/pixi/ml/people.js):
 * a first-in first-out line of people with consecutive ids. Person `id` stands at
 * x = id * 70 and carries record `id` of the CV data. Evaluating the head removes it
 * and appends a newly created person, so the line keeps its length while the count
 * of people ever created grows by one.
 */
module MlPeople {
  import opened Common

  /** Horizontal distance between two neighbours in the line (`personXoffset`). */
  const PersonXOffset: int := 70

  /** One person of the line; `personData` is the CV record the person was created from. */
  datatype MlPerson<D> = MlPerson(id: nat, x: int, personData: D)

  /** The verdict of the model on one person. */
  datatype Status = Accepted | Rejected

  /** The DATASET_VIEW_NEW_CV event emitted for every evaluated person. */
  datatype NewCvEvent<D> = DatasetViewNewCv(status: Status, data: D)

  /** The person created when the counter stands at `id`. */
  function PersonAt<D>(cvData: seq<D>, id: nat): MlPerson<D>
    requires id < |cvData|
  {
    MlPerson(id, id * PersonXOffset, cvData[id])
  }

  /** The people created while the counter ran from `lo` up to `hi - 1`, in creation order. */
  function Run<D>(cvData: seq<D>, lo: nat, hi: nat): (r: seq<MlPerson<D>>)
    requires lo <= hi <= |cvData|
    ensures |r| == hi - lo
    decreases hi - lo
  {
    if lo == hi then [] else Run(cvData, lo, hi - 1) + [PersonAt(cvData, hi - 1)]
  }

  /** The k-th person of a run has id `lo + k`, stands at `(lo + k) * 70` and holds record `lo + k`. */
  lemma {:induction false} RunAt<D>(cvData: seq<D>, lo: nat, hi: nat, k: nat)
    requires lo <= hi <= |cvData|
    requires k < hi - lo
    ensures Run(cvData, lo, hi)[k] == PersonAt(cvData, lo + k)
    ensures Run(cvData, lo, hi)[k].id == lo + k
    ensures Run(cvData, lo, hi)[k].x == (lo + k) * PersonXOffset
    decreases hi - lo
  {
    if k < hi - lo - 1 {
      RunAt(cvData, lo, hi - 1, k);
    }
  }

  /** A run is the tail of the history that starts at 0: the line is a suffix of everyone created. */
  lemma {:induction false} RunIsSuffix<D>(cvData: seq<D>, lo: nat, hi: nat)
    requires lo <= hi <= |cvData|
    ensures Run(cvData, lo, hi) == Run(cvData, 0, hi)[lo..]
  {
    var a, b := Run(cvData, lo, hi), Run(cvData, 0, hi)[lo..];
    forall k | 0 <= k < |a| ensures a[k] == b[k] {
      RunAt(cvData, lo, hi, k);
      RunAt(cvData, 0, hi, lo + k);
    }
  }

  /** Dropping the head of a non-empty run leaves the run that starts one id later. */
  lemma {:induction false} RunDropHead<D>(cvData: seq<D>, lo: nat, hi: nat)
    requires lo < hi <= |cvData|
    ensures Run(cvData, lo, hi)[1..] == Run(cvData, lo + 1, hi)
    decreases hi - lo
  {
    if lo + 1 < hi {
      RunDropHead(cvData, lo, hi - 1);
      assert Run(cvData, lo, hi)[1..] == Run(cvData, lo, hi - 1)[1..] + [PersonAt(cvData, hi - 1)];
    }
  }

  /** The people line. `cvData` stands for `cvCollection.cvData`. */
  class PeopleLine<D> {
    const cvData: seq<D>
    /** How many people the line holds; the source derives it from the screen width. */
    const numOfPeople: nat
    var personCount: nat
    var peopleLine: seq<MlPerson<D>>
    /** Everyone created so far, in creation order. */
    ghost var created: seq<MlPerson<D>>

    /**
     * Everyone created so far is the run 0 .. personCount - 1, and the line is the
     * most recent part of it: ids personCount - |peopleLine| .. personCount - 1.
     */
    ghost predicate Valid()
      reads this
    {
      personCount <= |cvData| &&
      created == Run(cvData, 0, personCount) &&
      |peopleLine| <= personCount &&
      peopleLine == Run(cvData, personCount - |peopleLine|, personCount)
    }

    /** Valid, and the line holds exactly `numOfPeople` people. */
    ghost predicate Full()
      reads this
    {
      Valid() && |peopleLine| == numOfPeople
    }

    constructor (cvData: seq<D>, numOfPeople: nat)
      requires numOfPeople <= |cvData|
      ensures Full()
      ensures this.cvData == cvData && this.numOfPeople == numOfPeople
      ensures personCount == numOfPeople
      ensures peopleLine == Run(cvData, 0, numOfPeople)
    {
      this.cvData := cvData;
      this.numOfPeople := numOfPeople;
      personCount := 0;
      peopleLine := [];
      created := [];
      new;
      CreatePeople();
    }

    /** Appends `numOfPeople` new people, one after another. */
    method CreatePeople()
      requires Valid()
      requires personCount + numOfPeople <= |cvData|
      modifies this
      ensures Valid()
      ensures personCount == old(personCount) + numOfPeople
      ensures |peopleLine| == old(|peopleLine|) + numOfPeople
      ensures peopleLine == Run(cvData, old(personCount - |peopleLine|), personCount)
    {
      var i := 0;
      while i < numOfPeople
        invariant 0 <= i <= numOfPeople
        invariant Valid()
        invariant personCount == old(personCount) + i
        invariant |peopleLine| == old(|peopleLine|) + i
      {
        AddNewPerson();
        i := i + 1;
      }
    }

    /** Creates the person numbered `personCount`, appends it to the line and counts it. */
    method AddNewPerson()
      requires Valid()
      requires personCount < |cvData|
      modifies this
      ensures Valid()
      ensures peopleLine == old(peopleLine) + [PersonAt(cvData, old(personCount))]
      ensures personCount == old(personCount) + 1
      ensures created == old(created) + [PersonAt(cvData, old(personCount))]
    {
      var person := MlPerson(personCount, personCount * PersonXOffset, cvData[personCount]);
      peopleLine := peopleLine + [person];
      created := created + [person];
      personCount := personCount + 1;
    }

    /** Every person in a valid line has the id, the position and the record its place implies. */
    lemma LineIds()
      requires Valid()
      ensures forall k :: 0 <= k < |peopleLine| ==>
        peopleLine[k] == PersonAt(cvData, personCount - |peopleLine| + k)
      ensures forall k :: 0 <= k < |peopleLine| ==> peopleLine[k] == created[personCount - |peopleLine| + k]
    {
      forall k | 0 <= k < |peopleLine|
        ensures peopleLine[k] == PersonAt(cvData, personCount - |peopleLine| + k)
        ensures peopleLine[k] == created[personCount - |peopleLine| + k]
      {
        RunAt(cvData, personCount - |peopleLine|, personCount, k);
        RunIsSuffix(cvData, personCount - |peopleLine|, personCount);
      }
    }

    /** The head of the line, or None when the line is empty. */
    function FirstPerson(): Option<MlPerson<D>>
      reads this
    {
      if |peopleLine| > 0 then Some(peopleLine[0]) else None
    }

    /** In a valid line the head is the oldest person still waiting. */
    lemma HeadIsOldest()
      requires Valid()
      ensures |peopleLine| > 0 ==> FirstPerson() == Some(PersonAt(cvData, personCount - |peopleLine|))
    {
      if |peopleLine| > 0 {
        RunAt(cvData, personCount - |peopleLine|, personCount, 0);
      }
    }

    /** The number of people waiting in the line. */
    function Count(): nat
      reads this
    {
      |peopleLine|
    }

    /**
     * Evaluates the head with `predict`: accepted exactly when the prediction is 1.
     * The head leaves the line and one newly created person joins at the tail.
     */
    method EvaluateFirstPerson(predict: D -> int) returns (status: Status, event: NewCvEvent<D>)
      requires Valid()
      requires |peopleLine| > 0
      requires personCount < |cvData|
      modifies this
      ensures Valid()
      ensures status == (if predict(old(peopleLine)[0].personData) == 1 then Accepted else Rejected)
      ensures event == DatasetViewNewCv(status, old(peopleLine)[0].personData)
      ensures peopleLine == old(peopleLine)[1..] + [PersonAt(cvData, old(personCount))]
      ensures personCount == old(personCount) + 1
      ensures Count() == old(Count())
      ensures old(Full()) ==> Full()
      ensures peopleLine == Run(cvData, old(personCount - |peopleLine|) + 1, personCount)
    {
      status := if predict(peopleLine[0].personData) == 1 then Accepted else Rejected;
      event := DatasetViewNewCv(status, peopleLine[0].personData);
      ghost var lo := personCount - |peopleLine|;
      RunDropHead(cvData, lo, personCount);
      peopleLine := peopleLine[1..];
      AddNewPerson();
    }
  }

  /** A client: a line of three keeps its length while the ids move on by one per evaluation. */
  method LineScenario(cvData: seq<int>)
    requires |cvData| >= 5
  {
    var line := new PeopleLine(cvData, 3);
    line.LineIds();
    assert line.FirstPerson() == Some(MlPerson(0, 0, cvData[0]));
    var status, event := line.EvaluateFirstPerson(d => if d > 0 then 1 else 0);
    assert event.data == cvData[0];
    assert status == Accepted <==> cvData[0] > 0;
    assert line.Count() == 3 && line.personCount == 4;
    line.LineIds();
    assert line.peopleLine[2] == MlPerson(3, 210, cvData[3]);
  }
}
