/** The recognition script's choice of its best detection: over all boxes of all results, in
    order, keep the first box whose confidence is strictly greatest and above 0, and report its
    label with the confidence scaled to a percentage. */
module DetectPlate {
  import opened Wrappers
  import opened Json
  import opened Streams

  /** One detection box: its confidence, and its class index (None when the box has no class). */
  datatype Box = Box(conf: real, cls: Option<int>)

  /** One element of the model's results: its class-name table (None when it has no `names`
      attribute) and its boxes in order. */
  datatype Group = Group(names: Option<map<int, string>>, boxes: seq<Box>)

  /** The label used when a box's class name cannot be looked up. */
  const Detected: string := "DETECTED"

  /** The label a box would get: its class name when the group has names and the box a class,
      otherwise DETECTED. Failure(index) when the name table lacks the index, where the lookup
      raises a KeyError. */
  function Label(g: Group, b: Box): (r: Result<string, int>)
    ensures r.Failure? <==> g.names.Some? && b.cls.Some? && b.cls.value !in g.names.value
    ensures r.Failure? ==> r.error == b.cls.value
    ensures g.names.Some? && b.cls.Some? && r.Success? ==> r.value == g.names.value[b.cls.value]
    ensures g.names.None? || b.cls.None? ==> r == Success(Detected)
  {
    if g.names.Some? && b.cls.Some? then
      if b.cls.value in g.names.value then Success(g.names.value[b.cls.value]) else Failure(b.cls.value)
    else
      Success(Detected)
  }

  /** A box as the selection sees it: its confidence and its label. */
  datatype Candidate = Candidate(conf: real, name: Result<string, int>)

  function GroupCandidates(g: Group): (r: seq<Candidate>)
    ensures |r| == |g.boxes|
    ensures forall i :: 0 <= i < |r| ==> r[i] == Candidate(g.boxes[i].conf, Label(g, g.boxes[i]))
  {
    seq(|g.boxes|, i requires 0 <= i < |g.boxes| => Candidate(g.boxes[i].conf, Label(g, g.boxes[i])))
  }

  /** Every box of every result, in the order of the nested loop. */
  function Candidates(groups: seq<Group>): seq<Candidate> {
    if groups == [] then [] else Candidates(groups[..|groups| - 1]) + GroupCandidates(groups[|groups| - 1])
  }

  lemma {:induction false} CandidatesPrefix(groups: seq<Group>, k: nat)
    requires k <= |groups|
    ensures Candidates(groups[..k]) <= Candidates(groups)
    decreases |groups|
  {
    if k < |groups| {
      var init := groups[..|groups| - 1];
      assert groups[..k] == init[..k];
      CandidatesPrefix(init, k);
    } else {
      assert groups[..k] == groups;
    }
  }

  /** The loop's variables `max_conf` and `best_pred`, or the KeyError that ended the loop. */
  datatype Scan = Scanning(maxConf: real, bestPred: Option<string>) | Raised(cls: int)

  /** One iteration of the inner loop: only a strictly higher confidence changes the state, so an
      equal later confidence keeps the earlier label; looking up the label of a box that does not
      raise the maximum never happens, and a KeyError, once raised, ends the loop. */
  function Step(s: Scan, c: Candidate): (r: Scan)
    ensures s.Raised? || c.conf <= s.maxConf ==> r == s
    ensures s.Scanning? && c.conf > s.maxConf ==> (r.Raised? <==> c.name.Failure?)
    ensures s.Scanning? && c.conf > s.maxConf && c.name.Success? ==> r == Scanning(c.conf, Some(c.name.value))
    ensures s.Scanning? && c.conf > s.maxConf && c.name.Failure? ==> r == Raised(c.name.error)
  {
    if s.Raised? || c.conf <= s.maxConf then s
    else
      match c.name
      case Success(l) => Scanning(c.conf, Some(l))
      case Failure(k) => Raised(k)
  }

  /** The loop's state after visiting `cs` in order, starting from `max_conf = 0`, `best_pred = None`. */
  function Run(cs: seq<Candidate>): (r: Scan)
    ensures r.Scanning? ==> r.maxConf >= 0.0
    ensures r.Scanning? ==> (r.bestPred.Some? <==> r.maxConf > 0.0)
  {
    if cs == [] then Scanning(0.0, None) else Step(Run(cs[..|cs| - 1]), cs[|cs| - 1])
  }

  /** What the script prints (before rounding), or the KeyError it dies with. */
  datatype Outcome = Printed(plateNumber: Option<string>, confidence: real) | KeyError(cls: int)

  /** `best_pred if best_pred else None`: no label and the empty label both print as None. */
  function Truthy(best: Option<string>): (r: Option<string>)
    ensures r.Some? <==> best.Some? && best.value != ""
    ensures r.Some? ==> r == best
  {
    if best.Some? && best.value != "" then best else None
  }

  /** The end of the script: the KeyError propagates, or the label and the confidence as a
      percentage are printed. */
  function Finish(s: Scan): (r: Outcome)
    ensures r.KeyError? <==> s.Raised?
    ensures s.Raised? ==> r.cls == s.cls
    ensures s.Scanning? ==> r.confidence == 100.0 * s.maxConf && r.plateNumber == Truthy(s.bestPred)
    ensures r.Printed? && r.plateNumber.Some? ==> r.plateNumber.value != ""
  {
    match s
    case Raised(k) => KeyError(k)
    case Scanning(m, best) => Printed(Truthy(best), 100.0 * m)
  }

  /** The selection of `detect_plate`, over the model's results. */
  method SelectBest(groups: seq<Group>) returns (out: Outcome)
    ensures out == Finish(Run(Candidates(groups)))
  {
    var bestPred: Option<string> := None;
    var maxConf: real := 0.0;
    for i := 0 to |groups|
      invariant Run(Candidates(groups[..i])) == Scanning(maxConf, bestPred)
    {
      var r := groups[i];
      ghost var done := Candidates(groups[..i]);
      assert done + GroupCandidates(r)[..0] == done;
      for j := 0 to |r.boxes|
        invariant Run(done + GroupCandidates(r)[..j]) == Scanning(maxConf, bestPred)
      {
        var box := r.boxes[j];
        var conf := box.conf;
        RunStep(done, GroupCandidates(r), j);
        if conf > maxConf {
          maxConf := conf;
          if r.names.Some? && box.cls.Some? {
            if box.cls.value !in r.names.value {
              out := KeyError(box.cls.value);
              RaisedEndsRun(groups, i, j);
              return;
            }
            bestPred := Some(r.names.value[box.cls.value]);
          } else {
            bestPred := Some(Detected);
          }
        }
      }
      CandidatesStep(groups, i);
    }
    assert groups[..|groups|] == groups;
    out := Printed(Truthy(bestPred), 100.0 * maxConf);
  }

  /** Visiting one more box of the current result is one Step. */
  lemma RunStep(done: seq<Candidate>, g: seq<Candidate>, j: nat)
    requires j < |g|
    ensures Run(done + g[..j + 1]) == Step(Run(done + g[..j]), g[j])
  {
    var seen := done + g[..j + 1];
    assert seen[..|seen| - 1] == done + g[..j];
  }

  /** Finishing the boxes of result `i` finishes the results up to and including it. */
  lemma CandidatesStep(groups: seq<Group>, i: nat)
    requires i < |groups|
    ensures Candidates(groups[..i + 1]) == Candidates(groups[..i]) + GroupCandidates(groups[i])[..|groups[i].boxes|]
  {
    assert groups[..i + 1][..i] == groups[..i];
    assert GroupCandidates(groups[i])[..|groups[i].boxes|] == GroupCandidates(groups[i]);
  }

  /** A KeyError at box `j` of result `i` is the outcome of the whole selection. */
  lemma RaisedEndsRun(groups: seq<Group>, i: nat, j: nat)
    requires i < |groups| && j < |groups[i].boxes|
    requires Run(Candidates(groups[..i]) + GroupCandidates(groups[i])[..j + 1]).Raised?
    ensures Run(Candidates(groups)) == Run(Candidates(groups[..i]) + GroupCandidates(groups[i])[..j + 1])
  {
    CandidatesStep(groups, i);
    CandidatesPrefix(groups, i + 1);
    RaisedSticks(Candidates(groups[..i]) + GroupCandidates(groups[i])[..j + 1], Candidates(groups));
  }

  /** Once the lookup has raised, nothing further changes the outcome. */
  lemma {:induction false} RaisedSticks(cs: seq<Candidate>, ds: seq<Candidate>)
    requires Run(cs).Raised? && cs <= ds
    ensures Run(ds) == Run(cs)
    decreases |ds|
  {
    if |ds| > |cs| {
      var init := ds[..|ds| - 1];
      assert cs <= init;
      RaisedSticks(cs, init);
    } else {
      assert cs == ds;
    }
  }

  function Max(a: real, b: real): real {
    if a < b then b else a
  }

  /** The largest confidence among `cs`, or 0 when none is above 0. */
  function MaxConf(cs: seq<Candidate>): real {
    if cs == [] then 0.0 else Max(MaxConf(cs[..|cs| - 1]), cs[|cs| - 1].conf)
  }

  /** MaxConf is at least 0 and every confidence, and when it is above 0 some box attains it. */
  lemma {:induction false} MaxConfIsMaximum(cs: seq<Candidate>)
    ensures MaxConf(cs) >= 0.0
    ensures forall i :: 0 <= i < |cs| ==> cs[i].conf <= MaxConf(cs)
    ensures MaxConf(cs) > 0.0 ==> FirstReaching(cs, MaxConf(cs)) < |cs|
  {
    if cs != [] {
      var init := cs[..|cs| - 1];
      MaxConfIsMaximum(init);
      assert forall i :: 0 <= i < |init| ==> cs[i] == init[i];
      var m := MaxConf(cs);
      if m > 0.0 && m == MaxConf(init) {
        assert init[FirstReaching(init, m)].conf >= m;
      }
      if m > 0.0 {
        assert cs[|cs| - 1].conf >= m || cs[FirstReaching(init, m)].conf >= m;
      }
    }
  }

  /** The maximum never decreases as more boxes are visited. */
  lemma {:induction false} MaxConfMonotone(cs: seq<Candidate>, k: nat)
    requires k <= |cs|
    ensures MaxConf(cs[..k]) <= MaxConf(cs)
    decreases |cs|
  {
    if k < |cs| {
      var init := cs[..|cs| - 1];
      assert cs[..k] == init[..k];
      MaxConfMonotone(init, k);
    } else {
      assert cs[..k] == cs;
    }
  }

  /** The first index whose confidence reaches `m`, or |cs| when none does. */
  function FirstReaching(cs: seq<Candidate>, m: real): (r: nat)
    ensures r <= |cs|
    ensures forall j :: 0 <= j < r ==> cs[j].conf < m
    ensures r < |cs| ==> cs[r].conf >= m
  {
    if cs == [] then 0 else if cs[0].conf >= m then 0 else 1 + FirstReaching(cs[1..], m)
  }

  /** The running maximum of the loop is the maximum of the confidences seen. */
  lemma {:induction false} RunTracksMax(cs: seq<Candidate>)
    ensures Run(cs).Scanning? ==> Run(cs).maxConf == MaxConf(cs)
  {
    if cs != [] {
      RunTracksMax(cs[..|cs| - 1]);
    }
  }

  /** Box `i` raises the running maximum: it is above 0 and above every box before it. */
  predicate IsRecord(cs: seq<Candidate>, i: nat)
    requires i < |cs|
  {
    cs[i].conf > MaxConf(cs[..i])
  }

  /** The loop dies with a KeyError exactly when a box that raises the running maximum has a
      class its group's name table lacks, and the error names a class of such a box. */
  lemma {:induction false} RaisedIffRecordLacksName(cs: seq<Candidate>)
    ensures Run(cs).Raised? ==>
      exists i :: 0 <= i < |cs| && IsRecord(cs, i) && cs[i].name == Failure(Run(cs).cls)
    ensures (exists i :: 0 <= i < |cs| && IsRecord(cs, i) && cs[i].name.Failure?) ==> Run(cs).Raised?
  {
    if cs != [] {
      var init := cs[..|cs| - 1];
      var n := |cs| - 1;
      RaisedIffRecordLacksName(init);
      RunTracksMax(init);
      assert cs[..n] == init;
      forall i | 0 <= i < n
        ensures cs[i] == init[i] && cs[..i] == init[..i]
      {
      }
      if Run(cs).Raised? && Run(init).Raised? {
        var i :| 0 <= i < |init| && IsRecord(init, i) && init[i].name == Failure(Run(init).cls);
        assert IsRecord(cs, i);
      }
      if Run(init).Scanning? {
        forall i | 0 <= i < |cs| && IsRecord(cs, i) && cs[i].name.Failure?
          ensures Run(cs).Raised?
        {
          if i < n {
            assert IsRecord(init, i);
          }
        }
      }
    }
  }

  /** When some box is above 0, the loop keeps the label of the first box with the greatest
      confidence: a later box with the same confidence does not replace it. */
  lemma {:induction false} RunKeepsFirstMaximum(cs: seq<Candidate>)
    requires Run(cs).Scanning? && MaxConf(cs) > 0.0
    ensures FirstReaching(cs, MaxConf(cs)) < |cs|
    ensures cs[FirstReaching(cs, MaxConf(cs))].conf == MaxConf(cs)
    ensures Run(cs).bestPred.Some?
    ensures cs[FirstReaching(cs, MaxConf(cs))].name == Success(Run(cs).bestPred.value)
  {
    var init := cs[..|cs| - 1];
    var x := cs[|cs| - 1];
    var m := MaxConf(cs);
    MaxConfIsMaximum(cs);
    MaxConfIsMaximum(init);
    RunTracksMax(init);
    assert forall i :: 0 <= i < |init| ==> cs[i] == init[i];
    assert Run(init).Scanning?;
    if x.conf > MaxConf(init) {
      assert m == x.conf;
      assert forall j :: 0 <= j < |init| ==> cs[j].conf < m;
      assert FirstReaching(cs, m) == |init|;
    } else {
      assert m == MaxConf(init);
      RunKeepsFirstMaximum(init);
      var k := FirstReaching(init, m);
      assert cs[k].conf >= m;
      assert FirstReaching(cs, m) == k;
    }
  }

  /** With no box above 0 (in particular with no box at all) the script reports no plate and a
      confidence of 0. */
  lemma {:induction false} NothingAboveZero(cs: seq<Candidate>)
    requires forall i :: 0 <= i < |cs| ==> cs[i].conf <= 0.0
    ensures Run(cs) == Scanning(0.0, None)
    ensures Finish(Run(cs)) == Printed(None, 0.0)
  {
    if cs != [] {
      NothingAboveZero(cs[..|cs| - 1]);
    }
  }

  /** What the script reports, stated without the loop: the confidence is 100 times the greatest
      box confidence (0 when none is above 0), and the plate is the label of the first box with
      that confidence, dropped when it is empty. */
  lemma ReportedBest(groups: seq<Group>)
    ensures Finish(Run(Candidates(groups))).Printed? ==>
      && Finish(Run(Candidates(groups))).confidence == 100.0 * MaxConf(Candidates(groups))
      && (MaxConf(Candidates(groups)) == 0.0 ==> Finish(Run(Candidates(groups))).plateNumber == None)
    ensures Finish(Run(Candidates(groups))).Printed? && MaxConf(Candidates(groups)) > 0.0 ==>
      var cs := Candidates(groups);
      var k := FirstReaching(cs, MaxConf(cs));
      && k < |cs| && cs[k].conf == MaxConf(cs) && cs[k].name.Success?
      && Finish(Run(cs)).plateNumber == Truthy(Some(cs[k].name.value))
  {
    var cs := Candidates(groups);
    RunTracksMax(cs);
    MaxConfIsMaximum(cs);
    if Run(cs).Scanning? {
      if MaxConf(cs) > 0.0 {
        RunKeepsFirstMaximum(cs);
      } else {
        NothingAboveZero(cs);
      }
    }
  }

  /** The object the script prints with `json.dumps`: the plate as a string or null, and the
      confidence as a number. */
  function ReportJson(plateNumber: Option<string>, confidence: real): (r: JsonValue)
    ensures r.JObject? && r.fields.Keys == {"plate_number", "confidence"}
    ensures r.fields["plate_number"] == JNull <==> plateNumber.None?
    ensures plateNumber.Some? ==> r.fields["plate_number"] == JString(plateNumber.value)
    ensures r.fields["confidence"] == JNumber(confidence)
  {
    JObject(map[
      "plate_number" := (if plateNumber.Some? then JString(plateNumber.value) else JNull),
      "confidence" := JNumber(confidence)])
  }

  /** How the script process ends: exit code 0 after printing, or 1 from the uncaught KeyError. */
  function ScriptStatus(out: Outcome): (s: ExitStatus)
    ensures Succeeded(s) <==> out.Printed?
    ensures out.KeyError? ==> s == Exited(1)
  {
    if out.Printed? then Exited(0) else Exited(1)
  }
}
