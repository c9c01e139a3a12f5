/**
 What is stored of the bodies of requests. Over whole runs a log grows by exactly the
 bodies of its successful POSTs, in order; for a JSON stream, by their values, which
 read back as one array however they were cut into requests and messages.
 */
module StoredBodies {
  import opened Options
  import opened Offsets
  import opened Tables
  import opened Cluster
  import opened ForkSafety
  import opened Logs
  import opened LogSafety
  import opened Writers
  import opened Admission
  import opened Framing

  // ----------------------------------------------------------- one message

  function Bodies(rs: seq<PostRequest>): seq<Blob> { seq(|rs|, i requires 0 <= i < |rs| => rs[i].body) }

  function ValueGroups(rs: seq<PostRequest>): seq<seq<Blob>> {
    seq(|rs|, i requires 0 <= i < |rs| => ValuesOf(rs[i].json))
  }

  /** All values of these requests, in order. */
  function AllValues(rs: seq<PostRequest>): seq<Blob> { Flatten(ValueGroups(rs)) }

  function StoredForms(contentType: Option<string>, rs: seq<PostRequest>): seq<Blob> {
    seq(|rs|, i requires 0 <= i < |rs| => StoredForm(contentType, rs[i]))
  }

  /** These messages hold these requests: their bodies, or for JSON their values, one by one and as one array. */
  predicate Holds(contentType: Option<string>, data: seq<Blob>, rs: seq<PostRequest>) {
    && |data| == |rs|
    && (!IsJson(contentType) ==> data == Bodies(rs))
    && (IsJson(contentType) ==>
          && Formatted(data) == ArrayOf(AllValues(rs))
          && forall k :: 0 <= k < |rs| ==> Formatted([data[k]]) == ArrayOf(ValuesOf(rs[k].json)))
  }

  lemma FormsHold(contentType: Option<string>, rs: seq<PostRequest>)
    ensures Holds(contentType, StoredForms(contentType, rs), rs)
  {
    var data := StoredForms(contentType, rs);
    if IsJson(contentType) {
      assert data == StoredAll(ValueGroups(rs));
      FormattedIsOneArray(ValueGroups(rs));
      forall k | 0 <= k < |rs| ensures Formatted([data[k]]) == ArrayOf(ValuesOf(rs[k].json)) {
        OneGroup(ValuesOf(rs[k].json));
      }
    } else {
      assert data == Bodies(rs);
    }
  }

  lemma OneGroup(values: seq<Blob>)
    ensures Formatted([Stored(values)]) == ArrayOf(values)
  {
    FormattedIsOneArray([values]);
    assert StoredAll([values]) == [Stored(values)];
    assert [values][..0] == [] && Flatten([values]) == Flatten([values][..0]) + values == values;
  }

  /** A successful append adds one message with the stored form of its body. */
  lemma AppendedAtEnd(t: Tables, r: PostRequest, now: int)
    requires LogOk(t) && Post(t, r, now).1.Appended? && Regular(Post(t, r, now).0)
    ensures t.meta.Some? && r.body != []
    ensures var u := Post(t, r, now).0;
            u.messages == t.messages + [Message(u.meta.value.currentOffset, StoredForm(t.meta.value.contentType, r))]
  {
    AppendedMeans(t, r, now);
    PayloadFits(t.meta.value.contentType, r);
    PayloadIsThere(t.meta.value.contentType, r);
    CommitAppends(t, r, StoredForm(t.meta.value.contentType, r), now);
  }

  lemma CommitAppends(t: Tables, r: PostRequest, payload: Blob, now: int)
    requires t.meta.Some? && LogOk(t) && payload != []
    requires r.producer.Some? ==> CheckProducer(t.producers, r.producer.value, now).Accepted?
    requires var u := CommitPost(t, r, payload, now); u.Some? && Regular(u.value)
    ensures var u := CommitPost(t, r, payload, now).value;
            u.messages == t.messages + [Message(u.meta.value.currentOffset, payload)]
  {
    AppendGrows(t, payload);
  }

  /** Anything else a POST may do leaves the log alone. */
  lemma OnlyAppendsAdd(t: Tables, r: PostRequest, now: int)
    requires !Post(t, r, now).1.Appended? && Post(t, r, now).0.meta.Some?
    ensures t.meta.Some? && Post(t, r, now).0.messages == t.messages
  {
    if Post(t, r, now).1.CloseSuccess? {
      CloseSuccessMeans(t, r, now);
    } else {
      RejectedChangesNothing(t, r, now);
    }
  }

  // -------------------------------------------------------------- whole runs

  /** The requests appended to q in this part of the run, in order. */
  function AppendedTo(steps: seq<Step>, outcomes: seq<WriteOutcome>, i: nat, j: nat, q: Path): seq<PostRequest>
    requires i <= j <= |steps| && |outcomes| == |steps|
    decreases j - i
  {
    if i == j then []
    else
      AppendedTo(steps, outcomes, i, j - 1, q)
      + (if PostsTo(steps[j - 1], q) && outcomes[j - 1].Appended? then [steps[j - 1].request] else [])
  }

  lemma {:induction false} LogGrowsByForms(run: seq<World>, steps: seq<Step>, outcomes: seq<WriteOutcome>, i: nat,
                                           j: nat, q: Path)
    requires Run(run, steps) && Good(run[0]) && Answers(run, steps, outcomes) && i <= j < |run| && Stays(run, i, j, q)
    requires Regular(At(run[j], q))
    ensures var t, u := At(run[i], q), At(run[j], q);
            && |t.messages| <= |u.messages| && u.messages[..|t.messages|] == t.messages
            && DataOf(u.messages[|t.messages|..])
               == StoredForms(t.meta.value.contentType, AppendedTo(steps, outcomes, i, j, q))
  {
    var t, u := At(run[i], q), At(run[j], q);
    if i == j {
      assert u.messages[|t.messages|..] == [];
    } else {
      StaysOneStep(run, steps, i, j, q);
      LastStepGrows(run, steps, outcomes, i, j, q);
      LogGrowsByForms(run, steps, outcomes, i, j - 1, q);
      var s := At(run[j - 1], q);
      TypeStays(run, steps, i, j - 1, q);
      FormsOneMore(t.meta.value.contentType, t.messages, s.messages, u.messages,
                   AppendedTo(steps, outcomes, i, j - 1, q), AppendedTo(steps, outcomes, i, j, q));
    }
  }

  lemma TypeStays(run: seq<World>, steps: seq<Step>, i: nat, j: nat, q: Path)
    requires Run(run, steps) && Good(run[0]) && i <= j < |run| && Stays(run, i, j, q)
    ensures At(run[j], q).meta.value.contentType == At(run[i], q).meta.value.contentType
  {
    RunIsLater(run, steps, i, j);
    assert LogLater(At(run[i], q), At(run[j], q));
  }

  /** What the last step adds. */
  lemma LastStepGrows(run: seq<World>, steps: seq<Step>, outcomes: seq<WriteOutcome>, i: nat, j: nat, q: Path)
    requires Run(run, steps) && Good(run[0]) && Answers(run, steps, outcomes) && i < j < |run| && Stays(run, i, j, q)
    requires Regular(At(run[j], q)) && Stays(run, j - 1, j, q)
    ensures Regular(At(run[j - 1], q))
    ensures var s, u := At(run[j - 1], q), At(run[j], q);
            if PostsTo(steps[j - 1], q) && outcomes[j - 1].Appended? then
              && |u.messages| == |s.messages| + 1 && u.messages[..|s.messages|] == s.messages
              && u.messages[|s.messages|].data == StoredForm(s.meta.value.contentType, steps[j - 1].request)
            else u.messages == s.messages
  {
    RegularOneStep(run, steps, j, q);
    if PostsTo(steps[j - 1], q) {
      PostedStepGrows(run, steps, outcomes, j, q);
    } else {
      OtherStepRests(run, steps, j, q);
    }
  }

  lemma PostedStepGrows(run: seq<World>, steps: seq<Step>, outcomes: seq<WriteOutcome>, j: nat, q: Path)
    requires Run(run, steps) && Answers(run, steps, outcomes) && 0 < j < |run| && Stays(run, j - 1, j, q)
    requires PostsTo(steps[j - 1], q) && LogOk(At(run[j - 1], q)) && Regular(At(run[j], q))
    ensures var s, u := At(run[j - 1], q), At(run[j], q);
            if outcomes[j - 1].Appended? then
              && |u.messages| == |s.messages| + 1 && u.messages[..|s.messages|] == s.messages
              && u.messages[|s.messages|].data == StoredForm(s.meta.value.contentType, steps[j - 1].request)
            else u.messages == s.messages
  {
    PostedAt(run, steps, j - 1, q);
    AnsweredAt(run, steps, outcomes, j - 1, q);
    var s, r, now := At(run[j - 1], q), steps[j - 1].request, steps[j - 1].now;
    assert (At(run[j], q), outcomes[j - 1]) == Post(s, r, now);
    PostGrows(s, r, now, At(run[j], q), outcomes[j - 1]);
  }

  lemma OtherStepRests(run: seq<World>, steps: seq<Step>, j: nat, q: Path)
    requires Run(run, steps) && 0 < j < |run| && Stays(run, j - 1, j, q) && !PostsTo(steps[j - 1], q)
    ensures At(run[j], q).messages == At(run[j - 1], q).messages
  {
    StaysOneStep(run, steps, j - 1, j, q);
  }

  lemma RegularOneStep(run: seq<World>, steps: seq<Step>, j: nat, q: Path)
    requires Run(run, steps) && Good(run[0]) && 0 < j < |run| && Stays(run, j - 1, j, q) && Regular(At(run[j], q))
    ensures LogOk(At(run[j - 1], q)) && Regular(At(run[j - 1], q))
  {
    RunStaysGood(run, steps, j - 1);
    RunIsLater(run, steps, j - 1, j);
    assert StreamOk(run[j - 1], q) && LogLater(At(run[j - 1], q), At(run[j], q));
  }

  lemma AnsweredAt(run: seq<World>, steps: seq<Step>, outcomes: seq<WriteOutcome>, i: nat, q: Path)
    requires |run| == |steps| + 1 && Answers(run, steps, outcomes) && i < |steps| && PostsTo(steps[i], q)
    ensures outcomes[i] == Post(At(run[i], q), steps[i].request, steps[i].now).1
  {
    assert AnswerAt(run, steps, outcomes, i);
  }

  lemma PostGrows(t: Tables, r: PostRequest, now: int, u: Tables, outcome: WriteOutcome)
    requires LogOk(t) && (u, outcome) == Post(t, r, now) && t.meta.Some? && u.meta.Some? && Regular(u)
    ensures if outcome.Appended? then
              && |u.messages| == |t.messages| + 1 && u.messages[..|t.messages|] == t.messages
              && u.messages[|t.messages|].data == StoredForm(t.meta.value.contentType, r)
            else u.messages == t.messages
  {
    if outcome.Appended? {
      AppendedAtEnd(t, r, now);
    } else {
      OnlyAppendsAdd(t, r, now);
    }
  }

  lemma FormsOneMore(contentType: Option<string>, t: seq<Message>, s: seq<Message>, u: seq<Message>,
                     before: seq<PostRequest>, after: seq<PostRequest>)
    requires |t| <= |s| && s[..|t|] == t && DataOf(s[|t|..]) == StoredForms(contentType, before)
    requires (u == s && after == before)
             || (|u| == |s| + 1 && u[..|s|] == s && |after| == |before| + 1 && after[..|before|] == before
                 && u[|s|].data == StoredForm(contentType, after[|before|]))
    ensures |t| <= |u| && u[..|t|] == t && DataOf(u[|t|..]) == StoredForms(contentType, after)
  {
    if u != s {
      assert u[..|t|] == u[..|s|][..|t|];
      assert u[|t|..] == s[|t|..] + [u[|s|]];
      assert StoredForms(contentType, after) == StoredForms(contentType, before) + [u[|s|].data];
    }
  }

  /**
   Over any run, a stream's log grows by exactly the bodies of the POSTs that were
   answered as appended, in order: byte for byte, or for a JSON stream value for value.
   */
  lemma LogGrowsByBodies(run: seq<World>, steps: seq<Step>, outcomes: seq<WriteOutcome>, i: nat, j: nat, q: Path)
    requires Run(run, steps) && Good(run[0]) && Answers(run, steps, outcomes) && i <= j < |run| && Stays(run, i, j, q)
    requires Regular(At(run[j], q))
    ensures var t, u := At(run[i], q), At(run[j], q);
            && |t.messages| <= |u.messages| && u.messages[..|t.messages|] == t.messages
            && Holds(t.meta.value.contentType, DataOf(u.messages[|t.messages|..]),
                     AppendedTo(steps, outcomes, i, j, q))
  {
    LogGrowsByForms(run, steps, outcomes, i, j, q);
    FormsHold(At(run[i], q).meta.value.contentType, AppendedTo(steps, outcomes, i, j, q));
  }
}
