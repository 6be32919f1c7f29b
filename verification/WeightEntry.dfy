/** The weight prompt of the add-animal dialogue: read lines until one parses
    as a number within [0, 10000]. Each line arrives here already parsed:
    None for a line the number parser refused, Some(w) otherwise. */
module WeightEntry {
  import opened Results

  const MinWeight: real := 0.0
  const MaxWeight: real := 10000.0

  type Reading = Option<real>

  predicate InRange(w: real) {
    MinWeight <= w <= MaxWeight
  }

  /** A line the prompt takes: it parsed and its value is within range. */
  predicate Accepted(x: Reading) {
    x.Some? && InRange(x.value)
  }

  /** The weight taken and the number of lines consumed to get it. */
  datatype Entry = Entry(weight: real, attempts: nat)

  predicate NoneAccepted(inputs: seq<Reading>) {
    forall j :: 0 <= j < |inputs| ==> !Accepted(inputs[j])
  }

  /** `e` is the first accepted line of `inputs`: every line before it was
      refused, and nothing after it was read. */
  predicate IsFirstAccepted(inputs: seq<Reading>, e: Entry) {
    && 1 <= e.attempts <= |inputs|
    && inputs[e.attempts - 1] == Some(e.weight)
    && InRange(e.weight)
    && forall j :: 0 <= j < e.attempts - 1 ==> !Accepted(inputs[j])
  }

  /** The prompt as a function of the lines typed: None when the lines run
      out before one is accepted. */
  function ReadWeight(inputs: seq<Reading>): (r: Option<Entry>)
    ensures r.None? <==> NoneAccepted(inputs)
    ensures r.Some? ==> IsFirstAccepted(inputs, r.value)
  {
    if |inputs| == 0 then None
    else if Accepted(inputs[0]) then Some(Entry(inputs[0].value, 1))
    else
      match ReadWeight(inputs[1..])
      case None => None
      case Some(e) => Some(Entry(e.weight, e.attempts + 1))
  }

  /** The do-while loop itself: one line per iteration, leaving as soon as a
      line parses and lies in range. */
  method PromptWeight(inputs: seq<Reading>) returns (r: Option<Entry>)
    ensures r.None? <==> NoneAccepted(inputs)
    ensures r.Some? ==> IsFirstAccepted(inputs, r.value)
  {
    var i := 0;
    var validWeight := false;
    var weight := 0.0;
    while !validWeight && i < |inputs|
      invariant 0 <= i <= |inputs|
      invariant validWeight ==> 1 <= i && inputs[i - 1] == Some(weight) && InRange(weight)
      invariant forall j :: 0 <= j < i && !(validWeight && j == i - 1) ==> !Accepted(inputs[j])
      decreases |inputs| - i
    {
      var line := inputs[i];
      i := i + 1;
      if line.Some? {
        if line.value >= MinWeight && line.value <= MaxWeight {
          weight := line.value;
          validWeight := true;
        }
      }
    }
    r := if validWeight then Some(Entry(weight, i)) else None;
  }

  /** The first accepted line is determined by the input: the loop and the
      function cannot disagree. */
  lemma FirstAcceptedUnique(inputs: seq<Reading>, e1: Entry, e2: Entry)
    requires IsFirstAccepted(inputs, e1) && IsFirstAccepted(inputs, e2)
    ensures e1 == e2
  {
    if e1.attempts < e2.attempts {
      assert Accepted(inputs[e1.attempts - 1]);
    } else if e2.attempts < e1.attempts {
      assert Accepted(inputs[e2.attempts - 1]);
    }
  }

  /** Lines typed after an accepted weight are never consumed. */
  lemma LaterInputIgnored(inputs: seq<Reading>, more: seq<Reading>)
    requires ReadWeight(inputs).Some?
    ensures ReadWeight(inputs + more) == ReadWeight(inputs)
  {
    var e := ReadWeight(inputs).value;
    var all := inputs + more;
    assert IsFirstAccepted(all, e) by {
      assert all[e.attempts - 1] == inputs[e.attempts - 1];
      forall j | 0 <= j < e.attempts - 1
        ensures !Accepted(all[j])
      {
        assert all[j] == inputs[j];
      }
    }
    FirstAcceptedUnique(all, e, ReadWeight(all).value);
  }

  /** Refused lines in front of the input only add to the attempt count. */
  lemma {:induction false} RefusedPrefixSkipped(refused: seq<Reading>, rest: seq<Reading>)
    requires NoneAccepted(refused)
    ensures ReadWeight(refused + rest) ==
      match ReadWeight(rest)
      case None => None
      case Some(e) => Some(Entry(e.weight, e.attempts + |refused|))
  {
    if |refused| > 0 {
      var all := refused + rest;
      assert all[0] == refused[0];
      assert all[1..] == refused[1..] + rest;
      assert NoneAccepted(refused[1..]) by {
        forall j | 0 <= j < |refused[1..]|
          ensures !Accepted(refused[1..][j])
        {
          assert refused[1..][j] == refused[j + 1];
        }
      }
      RefusedPrefixSkipped(refused[1..], rest);
    } else {
      assert refused + rest == rest;
    }
  }

  /** The example dialogue: "abc" does not parse, -5 and 20000 are out of
      range, 150 is taken on the fourth line. */
  lemma ExampleDialogue()
    ensures ReadWeight([None, Some(-5.0), Some(20000.0), Some(150.0)]) == Some(Entry(150.0, 4))
  {
    var inputs: seq<Reading> := [None, Some(-5.0), Some(20000.0), Some(150.0)];
    RefusedPrefixSkipped(inputs[..3], inputs[3..]);
    assert inputs[..3] + inputs[3..] == inputs;
  }
}
