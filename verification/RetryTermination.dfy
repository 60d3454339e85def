/**
 How the retries of one message end, over every run in which its dead-letter publishes work. Other copies, other
 messages, late inserts and replays interleave freely with the copy `c` that is followed.
 */
module RetryTermination {
  import opened Common
  import opened OrderEvent
  import opened Deaths
  import opened Messages
  import opened Consumer
  import opened Broker
  import opened BrokerInvariant
  import opened BrokerGuarantees
  import Uuid

  /** Whatever the handler of `c` publishes to the dead-letter queue gets there and is confirmed. */
  predicate Smooth(a: Action, c: CopyId) {
    && (a.PublishDlq? && a.c == c ==> a.reached)
    && (a.ConfirmDlq? && a.c == c ==> a.confirm == Confirmed)
  }

  predicate SmoothRun(acts: seq<Action>, c: CopyId) {
    forall i :: 0 <= i < |acts| ==> Smooth(acts[i], c)
  }

  /** How often a handler published `c` to the dead-letter queue. */
  function DeadLetters(acts: seq<Action>, c: CopyId): nat {
    multiset(acts)[PublishDlq(c, true)]
  }

  /** The dead letter of `c` is out and waits for its confirmation or for the acknowledgement of `c`. */
  predicate LetterOut(place: Place) {
    place == Unacked(AwaitConfirm) || place == Unacked(Parked)
  }

  /** Copy `c` has used up `n` of its attempts and its insert has not been answered. */
  ghost predicate Trying(s: State, c: CopyId, content: Content, n: nat) {
    && c in s.copies && c < s.next && s.copies[c].msg.content == content && WellFormed(content)
    && Failures(s.copies[c].msg) == n < s.maxAttempts
    && var place := s.copies[c].place;
    && (place == Ready || place == Waiting || place == Unacked(Handling) || place == Unacked(Failing(Transient)) || LetterOut(place))
    && (LetterOut(place) ==> n + 1 == s.maxAttempts)
  }

  /** The insert was answered: the row is there and only the acknowledgement of `c` is left to do. */
  ghost predicate Stored(s: State, c: CopyId, content: Content) {
    && c < s.next && HasRow(s, content)
    && (c in s.copies ==> s.copies[c].place == Unacked(Recorded) && s.copies[c].msg.content == content)
  }

  predicate Gone(s: State, c: CopyId) {
    c < s.next && c !in s.copies
  }

  predicate Concerns(a: Action, c: CopyId) {
    match a
    case Arrive(_, _) => false
    case LateRecord(_) => false
    case _ => a.c == c
  }

  /** Actions of others leave the copy alone and never remove a row. */
  lemma OthersLeaveIt(s: State, a: Action, c: CopyId, content: Content)
    requires Enabled(s, a) && c < s.next && !Concerns(a, c)
    ensures var s' := Apply(s, a);
            && c < s'.next && s'.maxAttempts == s.maxAttempts
            && (c in s'.copies <==> c in s.copies) && (c in s.copies ==> s'.copies[c] == s.copies[c])
            && (HasRow(s, content) ==> HasRow(s', content))
  {
    hide ParseOrderCreated, FailedAttempts, Uuid.Canonical, AfterHop;
  }

  /** What a step of the copy itself does while it is being tried: only settlements use up attempts. */
  ghost predicate Tried(s: State, a: Action, s': State, c: CopyId, content: Content, n: nat)
    requires c in s.copies
  {
    var out := LetterOut(s.copies[c].place);
    match a
    case SettleIt(_) =>
      if out then n + 1 == s.maxAttempts && Gone(s', c)
      else Trying(s', c, content, n + 1) && !LetterOut(s'.copies[c].place)
    case Record(_, reply) =>
      && !out
      && if reply == Answered then Stored(s', c, content) else Trying(s', c, content, n) && !LetterOut(s'.copies[c].place)
    case PublishDlq(_, _) =>
      n + 1 == s.maxAttempts && !out && Trying(s', c, content, n) && LetterOut(s'.copies[c].place)
    case Requeue(_) => Trying(s', c, content, n) && !LetterOut(s'.copies[c].place)
    case _ => Trying(s', c, content, n) && (LetterOut(s'.copies[c].place) <==> out)
  }

  lemma OwnTry(s: State, a: Action, c: CopyId, content: Content, n: nat)
    requires Trying(s, c, content, n) && Enabled(s, a) && Concerns(a, c) && Smooth(a, c)
    ensures Tried(s, a, Apply(s, a), c, content, n) && Apply(s, a).maxAttempts == s.maxAttempts
  {
    hide ParseOrderCreated, FailedAttempts, Uuid.Canonical, AfterHop;
    HopCounts(s.copies[c].msg);
  }

  /** Neither a settlement nor a dead letter nor an insert of `c` is among the actions. */
  predicate Quiet(acts: seq<Action>, c: CopyId) {
    Handlings(acts, c) == 0 && DeadLetters(acts, c) == 0 && Record(c, Answered) !in acts
  }

  lemma Count(acts: seq<Action>, c: CopyId)
    requires acts != []
    ensures Handlings(acts, c) == Handlings(acts[1..], c) + if acts[0] == SettleIt(c) then 1 else 0
    ensures DeadLetters(acts, c) == DeadLetters(acts[1..], c) + if acts[0] == PublishDlq(c, true) then 1 else 0
    ensures forall a :: a in acts <==> a == acts[0] || a in acts[1..]
  {
    assert acts == [acts[0]] + acts[1..];
  }

  lemma {:induction false} GoneForGood(s: State, acts: seq<Action>, c: CopyId)
    requires Gone(s, c) && Runs(s, acts)
    ensures Gone(Final(s, acts), c) && Quiet(acts, c) && Final(s, acts).maxAttempts == s.maxAttempts
    decreases |acts|
  {
    hide Apply, Handlings, DeadLetters, HasRow;
    if acts == [] {
      NoActions(c);
    } else {
      assert !Concerns(acts[0], c);
      OthersLeaveIt(s, acts[0], c, None);
      GoneForGood(Apply(s, acts[0]), acts[1..], c);
      Count(acts, c);
    }
  }

  lemma NoActions(c: CopyId)
    ensures Quiet([], c)
  {
  }

  ghost function LettersOut(s: State, c: CopyId): nat {
    if c in s.copies && !LetterOut(s.copies[c].place) then 0 else 1
  }

  /** While no insert is answered, settlements count the attempts, and the last one removes the copy. */
  lemma {:induction false} FailingRun(s: State, acts: seq<Action>, c: CopyId, content: Content, n: nat)
    requires Trying(s, c, content, n) && Runs(s, acts) && SmoothRun(acts, c) && Record(c, Answered) !in acts
    ensures var s' := Final(s, acts);
            var used := n + Handlings(acts, c);
            && used <= s.maxAttempts == s'.maxAttempts
            && (if used == s.maxAttempts then Gone(s', c) else Trying(s', c, content, used))
            && LettersOut(s', c) <= LettersOut(s, c) + DeadLetters(acts, c)
            && (Requeue(c) !in acts ==> LettersOut(s', c) == LettersOut(s, c) + DeadLetters(acts, c))
    decreases |acts|
  {
    hide Apply, Enabled, Handlings, DeadLetters, LetterOut, HasRow;
    if acts == [] {
      NoActions(c);
    } else {
      Count(acts, c);
      var a := acts[0];
      var s1 := Apply(s, a);
      assert SmoothRun(acts[1..], c);
      if !Concerns(a, c) {
        OthersLeaveIt(s, a, c, content);
        FailingRun(s1, acts[1..], c, content, n);
      } else {
        OwnTry(s, a, c, content, n);
        if a.SettleIt? {
          if LetterOut(s.copies[c].place) {
            GoneForGood(s1, acts[1..], c);
          } else {
            FailingRun(s1, acts[1..], c, content, n + 1);
          }
        } else {
          FailingRun(s1, acts[1..], c, content, n);
        }
      }
    }
  }

  /** After the answered insert the copy is only waiting for its acknowledgement. */
  lemma {:induction false} StoredRun(s: State, acts: seq<Action>, c: CopyId, content: Content)
    requires Stored(s, c, content) && Runs(s, acts) && Requeue(c) !in acts
    ensures var s' := Final(s, acts);
            && Stored(s', c, content) && DeadLetters(acts, c) == 0
            && Handlings(acts, c) + (if c in s'.copies then 1 else 0) == if c in s.copies then 1 else 0
    decreases |acts|
  {
    hide Handlings, DeadLetters, HasRow;
    if acts == [] {
      NoActions(c);
    } else {
      Count(acts, c);
      var a := acts[0];
      if Concerns(a, c) {
        assert a == SettleIt(c);
        assert HasRow(Apply(s, a), content) by {
          RowsStay(s, c, content);
        }
      } else {
        OthersLeaveIt(s, a, c, content);
      }
      StoredRun(Apply(s, a), acts[1..], c, content);
    }
  }

  lemma RowsStay(s: State, c: CopyId, content: Content)
    requires Enabled(s, SettleIt(c)) && HasRow(s, content)
    ensures HasRow(Apply(s, SettleIt(c)), content)
  {
  }

  /** A copy whose dead letter is not out can still be stored; then nothing of it reaches the dead-letter queue. */
  lemma {:induction false} SucceedingRun(s: State, acts: seq<Action>, c: CopyId, content: Content, n: nat)
    requires Trying(s, c, content, n) && Runs(s, acts) && SmoothRun(acts, c)
    requires Record(c, Answered) in acts && Requeue(c) !in acts
    ensures var s' := Final(s, acts);
            && Stored(s', c, content) && DeadLetters(acts, c) == 0 && !LetterOut(s.copies[c].place)
            && n + Handlings(acts, c) + (if c in s'.copies then 1 else 0) <= s.maxAttempts
    decreases |acts|
  {
    hide Apply, Enabled, Handlings, DeadLetters, LetterOut, HasRow;
    Count(acts, c);
    var a := acts[0];
    var s1 := Apply(s, a);
    assert SmoothRun(acts[1..], c);
    if !Concerns(a, c) {
      OthersLeaveIt(s, a, c, content);
      SucceedingRun(s1, acts[1..], c, content, n);
    } else {
      OwnTry(s, a, c, content, n);
      if a == Record(c, Answered) {
        StoredRun(s1, acts[1..], c, content);
      } else if a.SettleIt? {
        if LetterOut(s.copies[c].place) {
          GoneForGood(s1, acts[1..], c);
          assert false;
        } else {
          SucceedingRun(s1, acts[1..], c, content, n + 1);
        }
      } else {
        SucceedingRun(s1, acts[1..], c, content, n);
      }
    }
  }

  // The retry bound, counted on the run itself.

  /** How often dead-lettering `c` failed: the publish did not get through, or was not confirmed. */
  function FailedDlqs(acts: seq<Action>, c: CopyId): nat {
    multiset(acts)[PublishDlq(c, false)] + multiset(acts)[ConfirmDlq(c, Refused)] + multiset(acts)[ConfirmDlq(c, TimedOut)]
  }

  lemma CountFailed(acts: seq<Action>, c: CopyId)
    requires acts != []
    ensures FailedDlqs(acts, c) == FailedDlqs(acts[1..], c) + if FailsDlq(acts[0], c) then 1 else 0
  {
    assert acts == [acts[0]] + acts[1..];
  }

  predicate FailsDlq(a: Action, c: CopyId) {
    a == PublishDlq(c, false) || a == ConfirmDlq(c, Refused) || a == ConfirmDlq(c, TimedOut)
  }

  /** The handler of `c` could not dead-letter it and is about to reject it. */
  predicate FellBack(s: State, c: CopyId) {
    c in s.copies && s.copies[c].place == Unacked(Fallback)
  }

  /** What a step of the copy itself does to its attempt count, if the copy is still there afterwards. */
  ghost predicate Counted(s: State, a: Action, s': State, c: CopyId)
    requires c in s.copies && c in s'.copies
  {
    && s'.copies[c].msg.content == s.copies[c].msg.content && s'.maxAttempts == s.maxAttempts && c < s'.next
    && Failures(s'.copies[c].msg) == Failures(s.copies[c].msg) + (if a.SettleIt? then 1 else 0)
    && (a.SettleIt? && !FellBack(s, c) ==> WellFormed(s.copies[c].msg.content) && Failures(s.copies[c].msg) + 1 < s.maxAttempts)
    && (a.SettleIt? || a.Requeue? ==> !FellBack(s', c))
    && (FailsDlq(a, c) ==> !FellBack(s, c) && FellBack(s', c))
    && (!a.SettleIt? && !a.Requeue? && !FailsDlq(a, c) ==> (FellBack(s', c) <==> FellBack(s, c)))
    && FailureKnown(s', c)
  }

  /** A failing delivery failed for the reason its body gives. */
  ghost predicate FailureKnown(s: State, c: CopyId)
    requires c in s.copies
  {
    var copy := s.copies[c];
    copy.place.Unacked? && copy.place.phase.Failing? ==> (copy.place.phase.failure.Transient? <==> WellFormed(copy.msg.content))
  }

  lemma OwnCount(s: State, a: Action, c: CopyId)
    requires c in s.copies && c < s.next && FailureKnown(s, c) && Enabled(s, a) && Concerns(a, c) && c in Apply(s, a).copies
    ensures Counted(s, a, Apply(s, a), c)
  {
    hide ParseOrderCreated, FailedAttempts, Uuid.Canonical, AfterHop;
    HopCounts(s.copies[c].msg);
  }

  function Debt(s: State, c: CopyId): nat {
    if FellBack(s, c) then 1 else 0
  }

  /** The attempts a well-formed copy may still use up on transient failures. */
  ghost function Budget(s: State, c: CopyId): nat
    requires c in s.copies
  {
    if WellFormed(s.copies[c].msg.content) && Failures(s.copies[c].msg) < s.maxAttempts
    then s.maxAttempts - 1 - Failures(s.copies[c].msg) else 0
  }

  /**
   In every run, as long as a copy exists: each handling of it was a rejection, and the attempt counter grew by exactly
   that number; there were at most as many as its budget plus its failed dead-letterings, and of a malformed message
   exactly as many as the latter, unless a crash intervened or the last rejection is still to come.
   */
  lemma {:induction false} RejectionsAreBounded(s: State, acts: seq<Action>, c: CopyId)
    requires c in s.copies && c < s.next && FailureKnown(s, c) && Runs(s, acts) && c in Final(s, acts).copies
    ensures var s' := Final(s, acts);
            var h := Handlings(acts, c);
            && Failures(s'.copies[c].msg) == Failures(s.copies[c].msg) + h
            && h + Debt(s', c) <= Budget(s, c) + Debt(s, c) + FailedDlqs(acts, c)
            && (!WellFormed(s.copies[c].msg.content) && Requeue(c) !in acts ==> h + Debt(s', c) == Debt(s, c) + FailedDlqs(acts, c))
    decreases |acts|
  {
    hide Apply, Enabled, Handlings, FailedDlqs, Failures, WellFormed, FellBack, FailsDlq;
    if acts == [] {
      NoActions(c);
      NoFailures(c);
    } else {
      Count(acts, c);
      CountFailed(acts, c);
      var a := acts[0];
      var s1 := Apply(s, a);
      if !Concerns(a, c) {
        OthersLeaveIt(s, a, c, None);
        NotItsDlq(a, c);
        SameDebt(s, s1, c);
      } else if c in s1.copies {
        OwnCount(s, a, c);
      } else {
        KeepsItsNumber(s, a);
        GoneForGood(s1, acts[1..], c);
        assert false;
      }
      RejectionsAreBounded(s1, acts[1..], c);
    }
  }

  lemma KeepsItsNumber(s: State, a: Action)
    requires Enabled(s, a)
    ensures Apply(s, a).next >= s.next
  {
    hide ParseOrderCreated, FailedAttempts, Uuid.Canonical, AfterHop;
  }

  lemma NoFailures(c: CopyId)
    ensures FailedDlqs([], c) == 0
  {
  }

  lemma NotItsDlq(a: Action, c: CopyId)
    requires !Concerns(a, c)
    ensures !FailsDlq(a, c)
  {
  }

  lemma SameDebt(s: State, s': State, c: CopyId)
    requires c in s.copies && c in s'.copies && s'.copies[c] == s.copies[c]
    ensures FellBack(s', c) <==> FellBack(s, c)
  {
  }

  // The theorems, for a well-formed message that has not been tried yet.

  predicate Untried(s: State, c: CopyId) {
    && c in s.copies && c < s.next && s.copies[c].place == Ready && WellFormed(s.copies[c].msg.content)
    && Failures(s.copies[c].msg) == 0 && s.maxAttempts >= 1
  }

  /**
   If the insert is never answered, the message is handled at most maxAttempts times and leaves the retry loop exactly
   with the last of them, dead-lettered: once, or more often if a crash gave its delivery back after the publish.
   */
  lemma FailingMessageIsDeadLettered(s: State, acts: seq<Action>, c: CopyId)
    requires Untried(s, c) && Runs(s, acts) && SmoothRun(acts, c) && Record(c, Answered) !in acts
    ensures Handlings(acts, c) <= s.maxAttempts
    ensures c !in Final(s, acts).copies <==> Handlings(acts, c) == s.maxAttempts
    ensures c in Final(s, acts).copies ==> Failures(Final(s, acts).copies[c].msg) == Handlings(acts, c)
    ensures c !in Final(s, acts).copies ==> DeadLetters(acts, c) >= 1
    ensures Requeue(c) !in acts ==> DeadLetters(acts, c) <= 1
  {
    hide Handlings, DeadLetters, Final, Runs, SmoothRun;
    FailingRun(s, acts, c, s.copies[c].msg.content, 0);
  }

  /** Every dead letter of such a run is published in the last handling and says so in its headers. */
  lemma DeadLetterSaysMaxAttempts(s: State, before: seq<Action>, c: CopyId)
    requires Untried(s, c) && Runs(s, before) && SmoothRun(before, c) && Record(c, Answered) !in before
    requires Enabled(Final(s, before), PublishDlq(c, true))
    ensures Handlings(before, c) == s.maxAttempts - 1
    ensures var now := Final(s, before);
            var after := Apply(now, PublishDlq(c, true));
            && now.next in after.copies && after.copies[now.next].place == Dead(false)
            && after.copies[now.next].msg.content == s.copies[c].msg.content
            && after.copies[now.next].msg.failedAttempts == Some(s.maxAttempts)
            && after.copies[now.next].msg.failureReason == Some(GaveUp(s.maxAttempts))
            && Failures(after.copies[now.next].msg) == 0
  {
    hide Handlings, DeadLetters, Final, Runs, SmoothRun, ParseOrderCreated, FailedAttempts, HasRow;
    var content := s.copies[c].msg.content;
    FailingRun(s, before, c, content, 0);
    var now := Final(s, before);
    OwnTry(now, PublishDlq(c, true), c, content, Handlings(before, c));
    HopCounts(now.copies[c].msg);
  }

  /**
   If some insert is answered and no crash gives the delivery back, the row is stored, the message is handled at most
   maxAttempts times in all, and it is never dead-lettered.
   */
  lemma AnsweredMessageIsStored(s: State, acts: seq<Action>, c: CopyId)
    requires Untried(s, c) && Runs(s, acts) && SmoothRun(acts, c)
    requires Record(c, Answered) in acts && Requeue(c) !in acts
    ensures HasRow(Final(s, acts), s.copies[c].msg.content)
    ensures c in Final(s, acts).copies ==> Final(s, acts).copies[c].place == Unacked(Recorded)
    ensures Handlings(acts, c) <= s.maxAttempts && DeadLetters(acts, c) == 0
  {
    hide Handlings, DeadLetters, HasRow, Final, Runs, SmoothRun;
    SucceedingRun(s, acts, c, s.copies[c].msg.content, 0);
  }
}
