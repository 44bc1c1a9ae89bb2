/**
 What each call of the two clients comes to, in the statuses and the words of the answers it got, and
 what the stage a day's move is reported to have failed at tells about the conversation that was had.
 */
module Verdicts {
  import opened Delivery
  import opened World
  import opened Preservation
  import opened Transfer
  import opened Safety
  import opened Bookkeeping

  // ----- the VictoriaLogs client ---------------------------------------------------------------

  /** A list of paths is had from a 200 that decodes, and is the one in it. */
  lemma CreateVerdict(cfg: Config, env: Env, w: World, day: Day)
    ensures var got, c := Exchange(cfg, env, w, CreateSnapshot(day)).1, Create(cfg, env, w, day).1;
            && (c.Paths? <==> got.Got? && got.reply.status == 200 && got.reply.readable)
            && (c.Paths? ==> c.ids == got.reply.ids)
            && (c.CreateHalted? <==> got.Dead?)
  {
    hide Exchange;
  }

  /** A delete is done on a 200, a 204, or an answer that says in its first KiB that there is nothing to delete. */
  lemma DeleteVerdict(cfg: Config, env: Env, w: World, snap: SnapId)
    ensures var got, e := Exchange(cfg, env, w, DeleteSnapshot(snap)).1, Delete(cfg, env, w, snap).1;
            && (e.Halted? <==> got.Dead?)
            && (e == Done <==>
                  got.Got? && var r := got.reply;
                  || r.status == 200 || r.status == 204
                  || Says(r.body, "not found") || Says(r.body, "no such")
                  || Says(r.body, "does not exist") || Says(r.body, "missing"))
  {
    var got := Exchange(cfg, env, w, DeleteSnapshot(snap)).1;
    if got.Got? { DeleteOkReads(got.reply); }
    hide Exchange, DeleteOk, Says;
  }

  /** A detach is done on a 200 or an answer that says so; a bare 204, 400, 403 or 404 is a failure. */
  lemma DetachVerdict(cfg: Config, env: Env, w: World, day: Day)
    ensures var got, e := Exchange(cfg, env, w, Detach(day)).1, DetachDay(cfg, env, w, day).1;
            && (e.Halted? <==> got.Dead?)
            && (e == Done <==>
                  got.Got? && var r := got.reply;
                  || r.status == 200 || Says(r.body, "not attached") || Says(r.body, "already detached")
                  || Says(r.body, "not found") || Says(r.body, "no such")
                  || Says(r.body, "does not exist") || Says(r.body, "missing"))
  {
    var got := Exchange(cfg, env, w, Detach(day)).1;
    if got.Got? { DetachOkReads(got.reply); }
    hide Exchange, DetachOk, Says;
  }

  lemma SaysInEmpty(phrase: string)
    requires phrase != ""
    ensures !Says("", phrase)
  {
    hide SaysAt;
  }

  /** An answer with an empty body is judged by its status alone. */
  lemma BareAnswers(status: int)
    ensures var r := Plainly(status, "");
            && (DeleteOk(r) <==> status == 200 || status == 204)
            && (DetachOk(r) <==> status == 200)
            && (AttachOk(r) <==> status == 200)
  {
    var r := Plainly(status, "");
    DeleteOkReads(r);
    DetachOkReads(r);
    AttachOkReads(r);
    hide DeleteOk, DetachOk, AttachOk, SaysAt;
  }

  /**
   The peer's attach endpoint answers a partition name with 200 if VictoriaLogs answered 200 or said that
   the partition is there already, and with 500 otherwise.
   */
  lemma AttachAnswers(w: World, id: MsgId, day: Day, how: How)
    requires PartitionName(day)
    ensures var w' := ServeAttach(w, id, day, how);
            var told := Truthful(Plainly(how.status, how.body), ClaimsAttached(Plainly(how.status, how.body)),
                                 day in w'.attached);
            && id in w'.replies && (w'.replies[id].status == 200 || w'.replies[id].status == 500)
            && (w'.replies[id].status == 200 <==>
                  told.status == 200 || Says(told.body, "already exists") || Says(told.body, "already attached"))
  {
    var w' := ServeAttach(w, id, day, how);
    var reply := Plainly(how.status, how.body);
    AttachOkReads(Truthful(reply, ClaimsAttached(reply), day in w'.attached));
    hide AttachOk, PartitionName, Says;
  }

  // ----- the peer client -----------------------------------------------------------------------

  /** The world after the same request was made so many times. */
  function After(cfg: Config, env: Env, w: World, msg: Msg, n: nat): World
    decreases n
  {
    if n == 0 then w else After(cfg, env, Exchange(cfg, env, w, msg).0, msg, n - 1)
  }

  /** What the request came to when it was made again after `n` times. */
  function Answer(cfg: Config, env: Env, w: World, msg: Msg, n: nat): Got {
    Exchange(cfg, env, After(cfg, env, w, msg, n), msg).1
  }

  /** No answer, a 5xx, and, to an upload, a 400 that reports a checksum mismatch. */
  predicate WorthAgain(msg: Msg, got: Got) {
    || got.Nothing?
    || (got.Got? && got.reply.status >= 500)
    || (got.Got? && msg.Receive? && got.reply.status == 400 && Quotes(got.reply.body, "checksum mismatch"))
  }

  /** Of `n` requests in a row all but the last were worth trying again; and the last too, if no attempt was left. */
  ghost predicate Persisted(cfg: Config, env: Env, w: World, msg: Msg, n: nat, left: nat) {
    && 1 <= n <= left
    && (forall k :: 0 <= k < n - 1 ==> WorthAgain(msg, Answer(cfg, env, w, msg, k)))
    && (n < left ==> !WorthAgain(msg, Answer(cfg, env, w, msg, n - 1)))
  }

  /** What SendPartition returns after its last attempt. */
  predicate SendReturns(s: Sending, got: Got) {
    match got
    case Dead(p) => s == SendHalted(p)
    case Nothing => s == NotSent
    case Got(r) =>
      && (s == Conflict <==> r.status == 409)
      && (s.Received? <==> r.status == 200 && r.readable) && (s.Received? ==> s.bytes == r.bytes)
      && (s == NotSent <==> r.status != 409 && !(r.status == 200 && r.readable))
  }

  lemma PersistedMore(cfg: Config, env: Env, w: World, msg: Msg, n: nat, left: nat)
    requires Persisted(cfg, env, Exchange(cfg, env, w, msg).0, msg, n, left)
    requires WorthAgain(msg, Exchange(cfg, env, w, msg).1)
    ensures Persisted(cfg, env, w, msg, n + 1, left + 1)
    ensures After(cfg, env, w, msg, n + 1) == After(cfg, env, Exchange(cfg, env, w, msg).0, msg, n)
    ensures Answer(cfg, env, w, msg, n) == Answer(cfg, env, Exchange(cfg, env, w, msg).0, msg, n - 1)
  {
    hide Exchange, WorthAgain;
    var w1 := Exchange(cfg, env, w, msg).0;
    forall k | 1 <= k <= n ensures Answer(cfg, env, w, msg, k) == Answer(cfg, env, w1, msg, k - 1) {
      assert After(cfg, env, w, msg, k) == After(cfg, env, w1, msg, k - 1);
    }
    hide Answer, After;
    forall k | 0 <= k < n ensures WorthAgain(msg, Answer(cfg, env, w, msg, k)) {
      if k == 0 { AnswerFirst(cfg, env, w, msg); }
    }
  }

  lemma AnswerFirst(cfg: Config, env: Env, w: World, msg: Msg)
    ensures Answer(cfg, env, w, msg, 0) == Exchange(cfg, env, w, msg).1
    ensures After(cfg, env, w, msg, 1) == Exchange(cfg, env, w, msg).0
  {
    hide Exchange;
    assert After(cfg, env, w, msg, 0) == w;
    assert After(cfg, env, Exchange(cfg, env, w, msg).0, msg, 0) == Exchange(cfg, env, w, msg).0;
  }

  /** From an attempt on: so many requests were made, and what came of them. */
  ghost predicate SendCame(cfg: Config, env: Env, w: World, w': World, day: Day, snap: SnapId, s: Sending, n: nat,
          attempt: nat)
    requires attempt < 3
  {
    var msg := Receive(day, snap);
    && Persisted(cfg, env, w, msg, n, 3 - attempt)
    && w' == After(cfg, env, w, msg, n) && SendReturns(s, Answer(cfg, env, w, msg, n - 1))
  }

  lemma SendGoesOn(w: World, got: Got, next: (World, Sending), day: Day, snap: SnapId)
    ensures var end := AfterSend(w, got, next);
            && (WorthAgain(Receive(day, snap), got) ==> end == next)
            && (!WorthAgain(Receive(day, snap), got) || next == (w, NotSent) ==> end.0 == w && SendReturns(end.1, got))
  {
    if got.Got? { HeadQuotes(got.reply.body, "checksum mismatch"); }
    hide Quotes, Contains, ReadBody;
  }

  lemma {:induction false} SendFrom(cfg: Config, env: Env, w: World, day: Day, snap: SnapId, attempt: nat)
    requires attempt < 3
    ensures var (w', s) := Send(cfg, env, w, day, snap, attempt);
            exists n :: SendCame(cfg, env, w, w', day, snap, s, n, attempt)
    decreases 3 - attempt
  {
    var msg := Receive(day, snap);
    SendUnfolds(cfg, env, w, day, snap, attempt);
    AnswerFirst(cfg, env, w, msg);
    var (w1, got) := Exchange(cfg, env, w, msg);
    var (w', s) := Send(cfg, env, w, day, snap, attempt);
    var next := Send(cfg, env, w1, day, snap, attempt + 1);
    SendGoesOn(w1, got, next, day, snap);
    assert attempt == 2 ==> next == (w1, NotSent);
    hide Exchange, After, Answer, WorthAgain, SendReturns, AfterSend, Send;
    if attempt < 2 && WorthAgain(msg, got) {
      SendFrom(cfg, env, w1, day, snap, attempt + 1);
      var n: nat :| SendCame(cfg, env, w1, w', day, snap, s, n, attempt + 1);
      PersistedMore(cfg, env, w, msg, n, 2 - attempt);
      assert SendCame(cfg, env, w, w', day, snap, s, n + 1, attempt);
    } else {
      assert SendCame(cfg, env, w, w', day, snap, s, 1, attempt);
    }
  }

  /**
   SendPartition makes the same request one to three times. Each but the last went unanswered or was answered
   with a 5xx or a 400 that reports a checksum mismatch; so was the last only if it was the third; and the
   last alone decides what is returned.
   */
  lemma SendVerdict(cfg: Config, env: Env, w: World, day: Day, snap: SnapId)
    ensures var (w', s) := Send(cfg, env, w, day, snap, 0);
            exists n :: SendCame(cfg, env, w, w', day, snap, s, n, 0)
  {
    hide Send, SendCame;
    SendFrom(cfg, env, w, day, snap, 0);
  }

  ghost predicate AttachCame(cfg: Config, env: Env, w: World, w': World, day: Day, e: Ended, n: nat, attempt: nat)
    requires attempt < 3
  {
    var msg := Attach(day);
    && Persisted(cfg, env, w, msg, n, 3 - attempt)
    && w' == After(cfg, env, w, msg, n) && AttachReturns(e, Answer(cfg, env, w, msg, n - 1))
  }

  predicate AttachReturns(e: Ended, got: Got) {
    && (e.Halted? <==> got.Dead?) && (e.Halted? ==> e.panicked == got.panicked)
    && (e == Done <==> got.Got? && got.reply.status == 200)
  }

  lemma AttachGoesOn(cfg: Config, env: Env, w: World, day: Day, attempt: nat)
    requires attempt < 3
    ensures var (w1, got) := Exchange(cfg, env, w, Attach(day));
            var end, next := AttachPeer(cfg, env, w, day, attempt), AttachPeer(cfg, env, w1, day, attempt + 1);
            && (attempt < 2 && WorthAgain(Attach(day), got) ==> end == next)
            && (!(attempt < 2 && WorthAgain(Attach(day), got)) ==> end.0 == w1 && AttachReturns(end.1, got))
  {
    hide Exchange;
    var w1 := Exchange(cfg, env, w, Attach(day)).0;
    assert AttachPeer(cfg, env, w1, day, 3) == (w1, Failed);
  }

  lemma {:induction false} AttachFrom(cfg: Config, env: Env, w: World, day: Day, attempt: nat)
    requires attempt < 3
    ensures var (w', e) := AttachPeer(cfg, env, w, day, attempt);
            exists n :: AttachCame(cfg, env, w, w', day, e, n, attempt)
    decreases 3 - attempt
  {
    var msg := Attach(day);
    AnswerFirst(cfg, env, w, msg);
    AttachGoesOn(cfg, env, w, day, attempt);
    var (w1, got) := Exchange(cfg, env, w, msg);
    var (w', e) := AttachPeer(cfg, env, w, day, attempt);
    hide Exchange, After, Answer, WorthAgain, AttachReturns, AttachPeer;
    if attempt < 2 && WorthAgain(msg, got) {
      AttachFrom(cfg, env, w1, day, attempt + 1);
      var n: nat :| AttachCame(cfg, env, w1, w', day, e, n, attempt + 1);
      PersistedMore(cfg, env, w, msg, n, 2 - attempt);
      assert AttachCame(cfg, env, w, w', day, e, n + 1, attempt);
    } else {
      assert AttachCame(cfg, env, w, w', day, e, 1, attempt);
    }
  }

  /** The same of the attach: tried again after no answer or a 5xx, and decided by the last answer. */
  lemma AttachVerdict(cfg: Config, env: Env, w: World, day: Day)
    ensures var (w', e) := AttachPeer(cfg, env, w, day, 0);
            exists n :: AttachCame(cfg, env, w, w', day, e, n, 0)
  {
    hide AttachPeer, AttachCame;
    AttachFrom(cfg, env, w, day, 0);
  }

  lemma TextSizeBound(s: string)
    ensures TextSize(s) <= 4 * |s|
  {
  }

  lemma QuotedAtEnd(before: string, phrase: string)
    requires 4 * (|before| + |phrase|) <= 1024
    ensures Quotes(before + phrase, phrase)
  {
    var text, i := before + phrase, |before|;
    TextSizeBound(text);
    assert text[..i + |phrase|] == text && text[i..i + |phrase|] == phrase;
    hide TextSize;
    assert QuotesAt(text, phrase, i);
  }

  lemma RejectionQuotes(mismatch: bool)
    ensures var r := Rejection(false, mismatch); r.status == 400 && (Quotes(r.body, "checksum mismatch") <==> mismatch)
  {
    hide TextSize;
    if mismatch {
      hide Quotes, QuotesAt;
      QuotedAtEnd("archive ", "checksum mismatch");
      assert "archive " + "checksum mismatch" == "archive checksum mismatch";
    }
  }

  /** An archive found to be corrupt is uploaded again; one rejected for another reason is not. */
  lemma MismatchIsTriedAgain(cfg: Config, w: World, id: MsgId, snap: SnapId)
    requires id in w.handlers && !w.handlers[id].restore && w.handlers[id].stage == Made
    requires Unpack(cfg.sha1, TmpDir(cfg, w.handlers[id].day, id), w.handlers[id].stream).result.Rejected?
    ensures var x := Unpack(cfg.sha1, TmpDir(cfg, w.handlers[id].day, id), w.handlers[id].stream);
            var stage := StepHandler(cfg, w, id, true).handlers[id].stage;
            && stage.Closing? && stage.reply.status == 400
            && (WorthAgain(Receive(w.handlers[id].day, snap), Got(stage.reply)) <==> x.result.err.Mismatch?)
  {
    ExtractCases(cfg, w, id, true);
    RejectionQuotes(true);
    RejectionQuotes(false);
    assert StepHandler(cfg, w, id, true) == StepExtract(cfg, w, id, true);
    hide Unpack, TmpDir, StepExtract, StepRename, StepHandler, Quotes, Rejection;
  }

  // ----- what a stage tells --------------------------------------------------------------------

  /**
   What was asked, and what was granted: an upload, and one answered 409 or with a 200 that decodes; an
   attach, and one answered 200; a detach, and one that VictoriaLogs claims to be done.
   */
  datatype Asked = Asked(uploaded: bool, placed: bool, attach: bool, attached: bool, detach: bool, detached: bool)

  const NOTHING_ASKED: Asked := Asked(false, false, false, false, false, false)

  function Either(a: Asked, b: Asked): Asked {
    Asked(a.uploaded || b.uploaded, a.placed || b.placed, a.attach || b.attach, a.attached || b.attached,
          a.detach || b.detach, a.detached || b.detached)
  }

  function AskedBy(day: Day, msg: Msg, got: Got): Asked {
    Asked(msg.Receive?,
          msg.Receive? && got.Got? && (got.reply.status == 409 || (got.reply.status == 200 && got.reply.readable)),
          msg == Attach(day),
          msg == Attach(day) && got.Got? && got.reply.status == 200,
          msg == Detach(day),
          msg == Detach(day) && got.Got? && ClaimsDetached(got.reply))
  }

  /** All that was asked and granted in a conversation. */
  function Summary(cfg: Config, env: Env, w: World, day: Day, msgs: seq<Msg>): Asked
    decreases msgs
  {
    if msgs == [] then NOTHING_ASKED
    else
      var (w1, got) := Exchange(cfg, env, w, msgs[0]);
      Either(AskedBy(day, msgs[0], got), Summary(cfg, env, w1, day, msgs[1..]))
  }

  /** The conversation that led from one world to the other comes to this. */
  ghost predicate Discussed(cfg: Config, env: Env, w: World, w': World, day: Day, a: Asked) {
    exists msgs :: w' == Talk(cfg, env, w, msgs) && a == Summary(cfg, env, w, day, msgs)
  }

  lemma {:induction false} SummaryConcat(cfg: Config, env: Env, w: World, day: Day, x: seq<Msg>, y: seq<Msg>)
    ensures Summary(cfg, env, w, day, x + y) ==
            Either(Summary(cfg, env, w, day, x), Summary(cfg, env, Talk(cfg, env, w, x), day, y))
    decreases x
  {
    hide Exchange, AskedBy;
    if x == [] {
      assert x + y == y;
    } else {
      assert (x + y)[0] == x[0] && (x + y)[1..] == x[1..] + y;
      SummaryConcat(cfg, env, Exchange(cfg, env, w, x[0]).0, day, x[1..], y);
    }
  }

  lemma DiscussedThen(cfg: Config, env: Env, a: World, b: World, c: World, day: Day, x: Asked, y: Asked)
    requires Discussed(cfg, env, a, b, day, x) && Discussed(cfg, env, b, c, day, y)
    ensures Discussed(cfg, env, a, c, day, Either(x, y))
  {
    var m :| b == Talk(cfg, env, a, m) && x == Summary(cfg, env, a, day, m);
    var n :| c == Talk(cfg, env, b, n) && y == Summary(cfg, env, b, day, n);
    hide Talk, Summary, Either;
    TalkConcat(cfg, env, a, m, n);
    SummaryConcat(cfg, env, a, day, m, n);
    assert c == Talk(cfg, env, a, m + n);
  }

  lemma DiscussedOnce(cfg: Config, env: Env, w: World, day: Day, msg: Msg)
    ensures var (w', got) := Exchange(cfg, env, w, msg); Discussed(cfg, env, w, w', day, AskedBy(day, msg, got))
  {
    hide Exchange, AskedBy;
    var (w', got) := Exchange(cfg, env, w, msg);
    assert [msg][1..] == [];
    assert Talk(cfg, env, w', []) == w' && Summary(cfg, env, w', day, []) == NOTHING_ASKED;
    assert w' == Talk(cfg, env, w, [msg]) && AskedBy(day, msg, got) == Summary(cfg, env, w, day, [msg]);
  }

  lemma DiscussedNothing(cfg: Config, env: Env, w: World, day: Day)
    ensures Discussed(cfg, env, w, w, day, NOTHING_ASKED)
  {
    assert w == Talk(cfg, env, w, []) && NOTHING_ASKED == Summary(cfg, env, w, day, []);
  }

  lemma DeleteDiscussed(cfg: Config, env: Env, w: World, day: Day, snap: SnapId)
    ensures Discussed(cfg, env, w, Delete(cfg, env, w, snap).0, day, NOTHING_ASKED)
  {
    DiscussedOnce(cfg, env, w, day, DeleteSnapshot(snap));
    hide Exchange, Discussed, DeleteOk;
  }

  lemma {:induction false} DeleteAllDiscussed(cfg: Config, env: Env, w: World, day: Day, ids: seq<SnapId>)
    ensures Discussed(cfg, env, w, DeleteAll(cfg, env, w, ids).0, day, NOTHING_ASKED)
    decreases ids
  {
    hide Delete, Discussed;
    if ids == [] {
      DiscussedNothing(cfg, env, w, day);
    } else {
      DeleteDiscussed(cfg, env, w, day, ids[0]);
      var (w1, e) := Delete(cfg, env, w, ids[0]);
      if !e.Halted? {
        DeleteAllDiscussed(cfg, env, w1, day, ids[1..]);
        DiscussedThen(cfg, env, w, w1, DeleteAll(cfg, env, w1, ids[1..]).0, day, NOTHING_ASKED, NOTHING_ASKED);
      }
    }
  }

  function AfterSending(s: Sending): Asked { Asked(true, s.Received? || s.Conflict?, false, false, false, false) }

  lemma {:induction false} SendDiscussed(cfg: Config, env: Env, w: World, day: Day, snap: SnapId, attempt: nat)
    requires attempt < 3
    ensures var (w', s) := Send(cfg, env, w, day, snap, attempt); Discussed(cfg, env, w, w', day, AfterSending(s))
    decreases 3 - attempt
  {
    var msg := Receive(day, snap);
    DiscussedOnce(cfg, env, w, day, msg);
    SendUnfolds(cfg, env, w, day, snap, attempt);
    var (w1, got) := Exchange(cfg, env, w, msg);
    var next := Send(cfg, env, w1, day, snap, attempt + 1);
    SendGoesOn(w1, got, next, day, snap);
    assert attempt == 2 ==> next == (w1, NotSent);
    hide Exchange, Discussed, Send, AfterSend, Quotes;
    if attempt < 2 && WorthAgain(msg, got) {
      SendDiscussed(cfg, env, w1, day, snap, attempt + 1);
      DiscussedThen(cfg, env, w, w1, next.0, day, AskedBy(day, msg, got), AfterSending(next.1));
    }
  }

  function AfterAttaching(e: Ended): Asked { Asked(false, false, true, e == Done, false, false) }

  lemma {:induction false} AttachDiscussed(cfg: Config, env: Env, w: World, day: Day, attempt: nat)
    requires attempt < 3
    ensures var (w', e) := AttachPeer(cfg, env, w, day, attempt); Discussed(cfg, env, w, w', day, AfterAttaching(e))
    decreases 3 - attempt
  {
    var msg := Attach(day);
    DiscussedOnce(cfg, env, w, day, msg);
    AttachGoesOn(cfg, env, w, day, attempt);
    var (w1, got) := Exchange(cfg, env, w, msg);
    hide Exchange, Discussed, AttachPeer;
    if attempt < 2 && WorthAgain(msg, got) {
      AttachDiscussed(cfg, env, w1, day, attempt + 1);
      var (w', e) := AttachPeer(cfg, env, w1, day, attempt + 1);
      DiscussedThen(cfg, env, w, w1, w', day, AskedBy(day, msg, got), AfterAttaching(e));
    }
  }

  /** Each end of a day's move, in what was asked and granted. */
  predicate StageTells(end: DayEnd, a: Asked) {
    && (a.attach ==> a.placed) && (a.detach ==> a.attached)
    && match end
       case Skipped => !a.uploaded
       case Transferred => a.detached
       case Broke(stage) =>
         && !a.detached
         && (stage == "snapshot" <==> !a.uploaded)
         && (stage == "stream" <==> a.uploaded && !a.placed)
         && (stage == "attach" <==> a.placed && !a.attached)
         && (stage == "snapshot_cleanup" <==> a.attached && !a.detach)
         && (stage == "detach" <==> a.detach)
       case Gone(_) => true
  }

  ghost predicate Told(cfg: Config, env: Env, w: World, day: Day, m: Moved, before: Asked) {
    exists a :: Discussed(cfg, env, w, m.w, day, a) && StageTells(m.end, Either(before, a))
  }

  lemma ToldThen(cfg: Config, env: Env, w: World, w1: World, day: Day, m: Moved, before: Asked, now: Asked)
    requires Discussed(cfg, env, w, w1, day, now) && Told(cfg, env, w1, day, m, Either(before, now))
    ensures Told(cfg, env, w, day, m, before)
  {
    hide Discussed, StageTells;
    var a :| Discussed(cfg, env, w1, m.w, day, a) && StageTells(m.end, Either(Either(before, now), a));
    DiscussedThen(cfg, env, w, w1, m.w, day, now, a);
    assert Either(Either(before, now), a) == Either(before, Either(now, a));
  }

  lemma GiveUpTold(cfg: Config, env: Env, w: World, day: Day, snap: SnapId, stage: string, before: Asked)
    requires StageTells(Broke(stage), before) && !before.detach
    ensures Told(cfg, env, w, day, GiveUp(cfg, env, w, snap, stage), before)
  {
    DeleteDiscussed(cfg, env, w, day, snap);
    hide Delete, Discussed;
    assert Either(before, NOTHING_ASKED) == before;
    var m := GiveUp(cfg, env, w, snap, stage);
    assert Discussed(cfg, env, w, m.w, day, NOTHING_ASKED);
  }

  lemma CleanTold(cfg: Config, env: Env, w: World, day: Day, snap: SnapId)
    ensures Told(cfg, env, w, day, CleanAndDetach(cfg, env, w, day, snap), Asked(true, true, true, true, false, false))
  {
    var before := Asked(true, true, true, true, false, false);
    DeleteDiscussed(cfg, env, w, day, snap);
    var (w1, e) := Delete(cfg, env, w, snap);
    DiscussedOnce(cfg, env, w1, day, Detach(day));
    DetachVerdict(cfg, env, w1, day);
    var (w2, got) := Exchange(cfg, env, w1, Detach(day));
    var d := DetachDay(cfg, env, w1, day).1;
    assert DetachDay(cfg, env, w1, day).0 == w2;
    var last := AskedBy(day, Detach(day), got);
    hide Delete, Discussed, Exchange, DetachDay;
    assert last == Asked(false, false, false, false, true, d == Done) by { hide Says; }
    hide AskedBy, Says;
    var m := CleanAndDetach(cfg, env, w, day, snap);
    assert Either(before, NOTHING_ASKED) == before;
    if e != Done {
      assert Discussed(cfg, env, w, m.w, day, NOTHING_ASKED) && StageTells(m.end, Either(before, NOTHING_ASKED));
    } else {
      assert Discussed(cfg, env, w1, m.w, day, last) && StageTells(m.end, Either(before, last));
      hide StageTells;
      ToldThen(cfg, env, w, w1, day, m, before, NOTHING_ASKED);
    }
  }

  lemma AttachTold(cfg: Config, env: Env, w: World, day: Day, snap: SnapId)
    ensures Told(cfg, env, w, day, AttachAndFinish(cfg, env, w, day, snap), Asked(true, true, false, false, false, false))
  {
    var before := Asked(true, true, false, false, false, false);
    AttachDiscussed(cfg, env, w, day, 0);
    var (w1, e) := AttachPeer(cfg, env, w, day, 0);
    var m, now := AttachAndFinish(cfg, env, w, day, snap), AfterAttaching(e);
    hide AttachPeer, Discussed, GiveUp, CleanAndDetach;
    if e.Halted? {
      assert Discussed(cfg, env, w, m.w, day, now) && StageTells(m.end, Either(before, now));
    } else {
      if e == Failed {
        GiveUpTold(cfg, env, w1, day, snap, "attach", Either(before, now));
      } else {
        CleanTold(cfg, env, w1, day, snap);
      }
      hide Told, StageTells;
      ToldThen(cfg, env, w, w1, day, m, before, now);
    }
  }

  lemma SnapshotTold(cfg: Config, env: Env, w: World, day: Day, snap: SnapId)
    ensures Told(cfg, env, w, day, MoveSnapshot(cfg, env, w, day, snap), NOTHING_ASKED)
  {
    SendDiscussed(cfg, env, w, day, snap, 0);
    var (w1, s) := Send(cfg, env, w, day, snap, 0);
    var m, now := MoveSnapshot(cfg, env, w, day, snap), AfterSending(s);
    hide Send, Discussed, GiveUp, AttachAndFinish;
    if s.SendHalted? {
      assert Discussed(cfg, env, w, m.w, day, now) && StageTells(m.end, Either(NOTHING_ASKED, now));
    } else {
      if s.NotSent? {
        GiveUpTold(cfg, env, w1, day, snap, "stream", Either(NOTHING_ASKED, now));
      } else {
        AttachTold(cfg, env, w1, day, snap);
      }
      hide Told, StageTells;
      ToldThen(cfg, env, w, w1, day, m, NOTHING_ASKED, now);
    }
  }

  /**
   How a day's move ended tells how far it got: whether anything was uploaded, placed, attached and detached,
   and the other way round. An attach is asked for only once the day is placed, a detach once it is attached.
   */
  lemma MoveDayStages(cfg: Config, env: Env, w: World, day: Day)
    ensures var m := MoveDay(cfg, env, w, day);
            exists a :: Discussed(cfg, env, w, m.w, day, a) && StageTells(m.end, a)
  {
    var (w1, c) := Create(cfg, env, w, day);
    var m := MoveDay(cfg, env, w, day);
    DiscussedOnce(cfg, env, w, day, CreateSnapshot(day));
    assert Discussed(cfg, env, w, w1, day, NOTHING_ASKED) by { hide Exchange, Discussed; }
    assert Either(NOTHING_ASKED, NOTHING_ASKED) == NOTHING_ASKED;
    if c.Paths? && |c.ids| == 1 {
      assert m == MoveSnapshot(cfg, env, w1, day, c.ids[0]);
      hide Create, MoveDay, MoveSnapshot, Discussed, StageTells;
      SnapshotTold(cfg, env, w1, day, c.ids[0]);
      ToldThen(cfg, env, w, w1, day, m, NOTHING_ASKED, NOTHING_ASKED);
    } else if c.Paths? && |c.ids| > 1 {
      DeleteAllDiscussed(cfg, env, w1, day, c.ids);
      hide Create, DeleteAll, Discussed;
      DiscussedThen(cfg, env, w, w1, m.w, day, NOTHING_ASKED, NOTHING_ASKED);
      assert StageTells(m.end, NOTHING_ASKED);
    } else {
      hide Create, Discussed;
      assert m.w == w1 && StageTells(m.end, NOTHING_ASKED);
    }
    assert forall a :: Either(NOTHING_ASKED, a) == a;
  }

  /** A day is skipped exactly when the answer to its snapshot request is an empty list. */
  lemma SkippedIff(cfg: Config, env: Env, w: World, day: Day)
    ensures var got, m := Exchange(cfg, env, w, CreateSnapshot(day)).1, MoveDay(cfg, env, w, day);
            m.end.Skipped? <==> got.Got? && got.reply.status == 200 && got.reply.readable && got.reply.ids == []
  {
    hide Exchange, MoveSnapshot, DeleteAll;
    var c := Create(cfg, env, w, day);
    if c.1.Paths? && |c.1.ids| == 1 { NotSkipped(cfg, env, c.0, day, c.1.ids[0]); }
  }

  lemma NotSkipped(cfg: Config, env: Env, w: World, day: Day, snap: SnapId)
    ensures !MoveSnapshot(cfg, env, w, day, snap).end.Skipped?
  {
    hide Send, AttachPeer, Delete, DetachDay;
  }

  // ----- what a report tells -------------------------------------------------------------------

  /** What was asked for on a day and granted, from some point of the run on, fits the stage reported. */
  ghost predicate FailedSo(cfg: Config, env: Env, w: World, w': World, day: Day, stage: string) {
    exists a :: Discussed(cfg, env, w, w', day, a) && StageTells(Broke(stage), a)
  }

  lemma {:induction false} MoveDaysFailed(cfg: Config, env: Env, run: Run, days: seq<Day>)
    requires run.report.errors == []
    ensures var end := MoveDays(cfg, env, run, days);
            end.report.errors == []
            || exists w1, day, stage :: end.report.errors == [(day, stage)] && FailedSo(cfg, env, w1, end.w, day, stage)
    decreases days
  {
    if days != [] {
      var m := MoveDay(cfg, env, run.w, days[0]);
      MoveDayStages(cfg, env, run.w, days[0]);
      hide MoveDay, Discussed, StageTells;
      if m.end.Transferred? || m.end.Skipped? {
        MoveDaysFailed(cfg, env, Added(run, days[0], m), days[1..]);
      } else if m.end.Broke? {
        assert FailedSo(cfg, env, run.w, m.w, days[0], m.end.stage);
      }
    }
  }

  /** The stage in a report is the one its day failed at: what was asked and granted last in the run tells so. */
  lemma ReportedStage(cfg: Config, env: Env, w: World, days: seq<Day>)
    ensures var run := RunTransfer(cfg, env, w, days);
            run.report.errors == []
            || exists w1, day, stage :: run.report.errors == [(day, stage)] && FailedSo(cfg, env, w1, run.w, day, stage)
  {
    var (w1, got) := Exchange(cfg, env, w, DeleteStale);
    hide Exchange, MoveDays, FailedSo;
    if !got.Dead? { MoveDaysFailed(cfg, env, Run(w1, Blank(), Finished, [], []), days); }
  }
}
