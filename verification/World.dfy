/**
 The two nodes and everything between them: what each VictoriaLogs instance and its data directory
 hold, the requests that were sent, and the receive and restore handlers in flight on the target.

 A request, once sent, may be served at any later time, or never; it is served at most once. The
 sender may miss the reply. Each handler runs in separate steps that interleave with all others.
 A snapshot of a sealed day is never written to again, so it is known by the day it was taken of.
 */
module World {
  import opened Archive
  import opened Delivery
  import opened Calendar

  type Day = string
  type SnapId = nat
  type MsgId = nat

  /** What stays fixed: the hash, the target's data path, what the source held and the target had. */
  datatype Config = Config(sha1: Bytes -> Bytes, dataPath: string, sealed: map<Day, seq<Kid>>, before: map<Day, Nodes>)

  /** ^\d{8}$ */
  predicate PartitionName(day: Day) { |day| == 8 && forall i :: 0 <= i < |day| ==> IsDigit(day[i]) }

  datatype Msg =
    | CreateSnapshot(day: Day)
    | DeleteSnapshot(snap: SnapId)
    | DeleteStale
    | Detach(day: Day)
    | Receive(day: Day, snap: SnapId)
    | Attach(day: Day)
    | Restore(day: Day)

  /** A request on the wire; `mine` tells the transfer's own from those of other clients. */
  datatype Packet = Packet(msg: Msg, mine: bool)

  datatype Reply = Reply(status: int, body: string, ids: seq<SnapId>, bytes: nat, readable: bool)

  function Plainly(status: int, body: string): Reply { Reply(status, body, [], 0, true) }

  datatype Stage =
    | Begin
    | Vacant
    | Made
    | Ready(bytes: nat)
    | Unmoved
    | Attaching(bytes: nat)
    | Closing(reply: Reply)
    | Over

  /**
   One run of ReceiveSnapshot or RestoreSnapshot on the target. Its temporary directory is named
   after the request it serves, so no name is used twice.
   */
  datatype Handler = Handler(day: Day, restore: bool, stream: TarStream, stage: Stage)

  /** One successful rename: which directory, from which temporary directory and stream. */
  datatype Install = Install(day: Day, tmp: MsgId, stream: TarStream)

  datatype World = World(
    held: set<Day>,               // partitions attached on the source
    snaps: map<SnapId, Day>,      // snapshots that exist on the source
    issued: seq<MsgId>,           // which request created each snapshot
    dirs: map<Day, Nodes>,        // visible partition directories on the target
    attached: set<Day>,           // partitions attached on the target
    temps: map<MsgId, Nodes>,     // hidden temporary directories on the target
    installs: seq<Install>,
    handlers: map<MsgId, Handler>,
    net: seq<Packet>,
    served: set<MsgId>,
    replies: map<MsgId, Reply>)

  // ----- how the VictoriaLogs client reads a reply ---------------------------------------------

  /** How many bytes UTF-8 takes for a character. */
  function Width(c: char): nat {
    if c < '\U{80}' then 1 else if c < '\U{800}' then 2 else if c < '\U{10000}' then 3 else 4
  }

  /** The octets of a character in UTF-8: section 3 of RFC 3629. */
  function Utf8(c: char): seq<int> {
    var n := c as int;
    if n <= 0x7F then [n]
    else if n <= 0x7FF then [0xC0 + n / 64, 0x80 + n % 64]
    else if n <= 0xFFFF then [0xE0 + n / 4096, 0x80 + n / 64 % 64, 0x80 + n % 64]
    else [0xF0 + n / 262144, 0x80 + n / 4096 % 64, 0x80 + n / 64 % 64, 0x80 + n % 64]
  }

  /** The width is that of the encoding, which tells every character apart. */
  lemma WidthIsUtf8(c: char, d: char)
    ensures |Utf8(c)| == Width(c) && forall i :: 0 <= i < |Utf8(c)| ==> 0 <= Utf8(c)[i] < 256
    ensures Utf8(c) == Utf8(d) ==> c == d
  {
    SixBits(c as int);
    SixBits(d as int);
    if Utf8(c) == Utf8(d) {
      assert |Utf8(c)| == |Utf8(d)|;
      assert forall i :: 0 <= i < |Utf8(c)| ==> Utf8(c)[i] == Utf8(d)[i];
      if |Utf8(c)| == 2 {
        assert Utf8(c)[0] == Utf8(d)[0] && Utf8(c)[1] == Utf8(d)[1];
      } else if |Utf8(c)| == 3 {
        assert Utf8(c)[0] == Utf8(d)[0] && Utf8(c)[1] == Utf8(d)[1] && Utf8(c)[2] == Utf8(d)[2];
      }
    }
  }

  lemma SixBits(n: int)
    requires n >= 0
    ensures n == 64 * (n / 64) + n % 64
    ensures n == 4096 * (n / 4096) + 64 * (n / 64 % 64) + n % 64
    ensures n == 262144 * (n / 262144) + 4096 * (n / 4096 % 64) + 64 * (n / 64 % 64) + n % 64
  {
    SixMore(n, 64);
    SixMore(n, 4096);
  }

  lemma SixMore(n: int, k: int)
    requires n >= 0 && (k == 64 || k == 4096)
    ensures n / k == 64 * (n / (64 * k)) + n / k % 64
  {
    assert n / (64 * k) == n / k / 64;
  }

  function TextSize(s: string): nat { if s == "" then 0 else Width(s[0]) + TextSize(s[1..]) }

  /** readBody: the characters that are whole within the first bytes of a body. */
  function ReadBody(s: string, room: nat): (t: string)
    ensures t <= s && TextSize(t) <= room && (t != s ==> TextSize(t) + Width(s[|t|]) > room)
  {
    if s == "" || Width(s[0]) > room then ""
    else
      var rest := ReadBody(s[1..], room - Width(s[0]));
      assert ([s[0]] + rest)[1..] == rest;
      [s[0]] + rest
  }

  const BODY_LIMIT: nat := 1024

  /** Lower case, as far as it yields ASCII: the Kelvin sign and the dotted capital I have ASCII forms too. */
  function Small(c: char): char {
    if 'A' <= c <= 'Z' then (c as int + 32) as char
    else if c == '\U{212A}' then 'k'
    else if c == '\U{130}' then 'i'
    else c
  }

  function Lower(s: string): (t: string)
    ensures |t| == |s| && forall i :: 0 <= i < |s| ==> t[i] == Small(s[i])
  {
    if s == "" then "" else [Small(s[0])] + Lower(s[1..])
  }

  predicate Contains(s: string, phrase: string) {
    exists i :: 0 <= i <= |s| && phrase <= s[i..]
  }

  /** bodySignals, with its loop over the phrases. */
  method BodySignals(body: string, phrases: seq<string>) returns (found: bool)
    ensures found == Signals(body, phrases)
  {
    var lower := Lower(body);
    for i := 0 to |phrases|
      invariant forall j :: 0 <= j < i ==> !Contains(lower, phrases[j])
    {
      if Contains(lower, phrases[i]) { return true; }
    }
    return false;
  }

  predicate Signals(body: string, phrases: seq<string>) {
    exists j :: 0 <= j < |phrases| && Contains(Lower(body), phrases[j])
  }

  /** A letter, or what it reads as in small letters. */
  predicate CaseOf(c: char, small: char) {
    || c == small
    || ('A' <= c <= 'Z' && small as int == c as int + 32)
    || (c == '\U{212A}' && small == 'k')
    || (c == '\U{130}' && small == 'i')
  }

  predicate IsSmall(c: char) { !('A' <= c <= 'Z') && c != '\U{212A}' && c != '\U{130}' }

  /** A body that reads the same up to case as one in small letters signals exactly what that one holds. */
  lemma SignalsIgnoreCase(body: string, small: string, phrases: seq<string>)
    requires |body| == |small| && forall i :: 0 <= i < |body| ==> CaseOf(body[i], small[i]) && IsSmall(small[i])
    ensures Signals(body, phrases) <==> exists j :: 0 <= j < |phrases| && Contains(small, phrases[j])
  {
    forall i | 0 <= i < |body| ensures Lower(body)[i] == small[i] {
      assert CaseOf(body[i], small[i]) && IsSmall(small[i]);
    }
    assert Lower(body) == small;
    hide Contains, Lower;
  }

  predicate IsAscii(c: char) { c < '\U{80}' }

  /** Whatever the case table says of other letters, an ASCII phrase is found in the same bodies. */
  lemma OtherLettersDoNotMatter(lower: char -> char, body: string, mapped: string, phrase: string)
    requires forall c :: IsAscii(lower(c)) || IsAscii(Small(c)) ==> lower(c) == Small(c)
    requires |mapped| == |body| && forall i :: 0 <= i < |body| ==> mapped[i] == lower(body[i])
    requires forall i :: 0 <= i < |phrase| ==> IsAscii(phrase[i])
    ensures Contains(mapped, phrase) <==> Contains(Lower(body), phrase)
  {
    forall i | 0 <= i <= |body| ensures phrase <= mapped[i..] <==> phrase <= Lower(body)[i..] {
      SamePrefix(phrase, mapped[i..], Lower(body)[i..]);
    }
  }

  lemma SamePrefix(phrase: string, s: string, t: string)
    requires |s| == |t| && forall i :: 0 <= i < |s| && (IsAscii(s[i]) || IsAscii(t[i])) ==> s[i] == t[i]
    requires forall i :: 0 <= i < |phrase| ==> IsAscii(phrase[i])
    ensures phrase <= s <==> phrase <= t
  {
    if phrase <= s || phrase <= t {
      assert forall i :: 0 <= i < |phrase| ==> IsAscii(phrase[i]) && (phrase[i] == s[i] || phrase[i] == t[i]);
      assert forall i :: 0 <= i < |phrase| ==> s[i] == t[i];
      assert s[..|phrase|] == t[..|phrase|];
    }
  }

  /** What a client reads of a reply's text. */
  function Head(r: Reply): string { ReadBody(r.body, BODY_LIMIT) }

  const GONE: seq<string> := ["not found", "no such", "does not exist", "missing"]
  const DETACHED: seq<string> := ["not attached", "already detached", "not found", "no such", "does not exist", "missing"]
  const ATTACHED: seq<string> := ["already exists", "already attached"]

  predicate DeleteOk(r: Reply) { r.status == 200 || r.status == 204 || Signals(Head(r), GONE) }
  predicate DetachOk(r: Reply) { r.status == 200 || Signals(Head(r), DETACHED) }
  predicate AttachOk(r: Reply) { r.status == 200 || Signals(Head(r), ATTACHED) }

  // ----- what an answer says, whoever reads it ---------------------------------------------------

  /** The phrase is in the text, in letters of either case, and ends within its first 1024 bytes. */
  predicate Says(text: string, phrase: string) {
    exists i :: 0 <= i <= |text| - |phrase| && SaysAt(text, phrase, i)
  }

  predicate SaysAt(text: string, phrase: string, i: nat)
    requires i + |phrase| <= |text|
  {
    TextSize(text[..i + |phrase|]) <= 1024 && forall k :: 0 <= k < |phrase| ==> CaseOf(text[i + k], phrase[k])
  }

  /** The same, letter for letter. */
  predicate Quotes(text: string, phrase: string) {
    exists i :: 0 <= i <= |text| - |phrase| && QuotesAt(text, phrase, i)
  }

  predicate QuotesAt(text: string, phrase: string, i: nat)
    requires i + |phrase| <= |text|
  {
    TextSize(text[..i + |phrase|]) <= 1024 && text[i..i + |phrase|] == phrase
  }

  /** By this answer VictoriaLogs claims that the snapshot is gone. */
  predicate ClaimsGone(r: Reply) {
    || r.status == 200 || r.status == 204
    || Says(r.body, "not found") || Says(r.body, "no such") || Says(r.body, "does not exist") || Says(r.body, "missing")
  }

  /** By this answer VictoriaLogs claims that the partition is not attached. */
  predicate ClaimsDetached(r: Reply) {
    || r.status == 200 || Says(r.body, "not attached") || Says(r.body, "already detached")
    || Says(r.body, "not found") || Says(r.body, "no such") || Says(r.body, "does not exist") || Says(r.body, "missing")
  }

  /** By this answer VictoriaLogs claims that the partition is attached. */
  predicate ClaimsAttached(r: Reply) {
    r.status == 200 || Says(r.body, "already exists") || Says(r.body, "already attached")
  }

  lemma {:induction false} TextSizeConcat(s: string, t: string)
    ensures TextSize(s + t) == TextSize(s) + TextSize(t)
  {
    if s == "" {
      assert s + t == t;
    } else {
      assert (s + t)[1..] == s[1..] + t;
      TextSizeConcat(s[1..], t);
    }
  }

  /** A character that ends within the first bytes is read, and no other. */
  lemma HeadReaches(text: string, n: nat)
    requires n <= |text|
    ensures n <= |ReadBody(text, BODY_LIMIT)| <==> TextSize(text[..n]) <= 1024
  {
    var head := ReadBody(text, BODY_LIMIT);
    if n <= |head| {
      TextSizeConcat(text[..n], head[n..]);
      assert text[..n] + head[n..] == head;
    } else {
      var m := |head|;
      assert text[..m + 1] == head + [text[m]];
      assert text[..m + 1] + text[m + 1..n] == text[..n];
      TextSizeConcat(head, [text[m]]);
      TextSizeConcat(text[..m + 1], text[m + 1..n]);
      assert [text[m]][1..] == "";
    }
  }

  lemma SliceOfPrefix(head: string, text: string, phrase: string, i: nat)
    requires head <= text && i + |phrase| <= |head|
    ensures phrase <= head[i..] <==> text[i..i + |phrase|] == phrase
  {
    assert head[i..][..|phrase|] == text[i..i + |phrase|];
  }

  lemma HeadQuotes(text: string, phrase: string)
    ensures Contains(ReadBody(text, BODY_LIMIT), phrase) <==> Quotes(text, phrase)
  {
    var head := ReadBody(text, BODY_LIMIT);
    hide ReadBody, TextSize;
    if Contains(head, phrase) {
      var i :| 0 <= i <= |head| && phrase <= head[i..];
      HeadReaches(text, i + |phrase|);
      SliceOfPrefix(head, text, phrase, i);
      assert QuotesAt(text, phrase, i);
    }
    if Quotes(text, phrase) {
      var i :| 0 <= i <= |text| - |phrase| && QuotesAt(text, phrase, i);
      HeadReaches(text, i + |phrase|);
      SliceOfPrefix(head, text, phrase, i);
    }
  }

  lemma SmallSlice(lower: string, text: string, phrase: string, i: nat)
    requires |lower| <= |text| && forall k :: 0 <= k < |lower| ==> lower[k] == Small(text[k])
    requires i + |phrase| <= |lower| && forall k :: 0 <= k < |phrase| ==> IsSmall(phrase[k])
    ensures phrase <= lower[i..] <==> forall k :: 0 <= k < |phrase| ==> CaseOf(text[i + k], phrase[k])
  {
    forall k | 0 <= k < |phrase| ensures lower[i..][k] == phrase[k] <==> CaseOf(text[i + k], phrase[k]) {
    }
    hide Small, CaseOf, IsSmall;
    if forall k :: 0 <= k < |phrase| ==> CaseOf(text[i + k], phrase[k]) {
      assert lower[i..][..|phrase|] == phrase;
    }
  }

  lemma HeadSays(text: string, phrase: string)
    requires forall k :: 0 <= k < |phrase| ==> IsSmall(phrase[k])
    ensures Contains(Lower(ReadBody(text, BODY_LIMIT)), phrase) <==> Says(text, phrase)
  {
    hide ReadBody, Lower, TextSize, Small, CaseOf;
    var head := ReadBody(text, BODY_LIMIT);
    var lower := Lower(head);
    if Contains(lower, phrase) {
      var i :| 0 <= i <= |lower| && phrase <= lower[i..];
      HeadReaches(text, i + |phrase|);
      SmallSlice(lower, text, phrase, i);
      assert SaysAt(text, phrase, i);
    }
    if Says(text, phrase) {
      var i :| 0 <= i <= |text| - |phrase| && SaysAt(text, phrase, i);
      HeadReaches(text, i + |phrase|);
      SmallSlice(lower, text, phrase, i);
    }
  }

  /** A client takes a delete as done exactly when VictoriaLogs claims that the snapshot is gone. */
  lemma DeleteOkReads(r: Reply)
    ensures DeleteOk(r) <==> ClaimsGone(r)
  {
    hide Says, Contains, Lower, ReadBody;
    forall j | 0 <= j < 4 ensures Contains(Lower(Head(r)), GONE[j]) <==> Says(r.body, GONE[j]) {
      HeadSays(r.body, GONE[j]);
    }
    assert GONE[0] == "not found" && GONE[1] == "no such" && GONE[2] == "does not exist" && GONE[3] == "missing";
  }

  lemma DetachOkReads(r: Reply)
    ensures DetachOk(r) <==> ClaimsDetached(r)
  {
    hide Says, Contains, Lower, ReadBody;
    forall j | 0 <= j < 6 ensures Contains(Lower(Head(r)), DETACHED[j]) <==> Says(r.body, DETACHED[j]) {
      HeadSays(r.body, DETACHED[j]);
    }
    assert DETACHED[0] == "not attached" && DETACHED[1] == "already detached" && DETACHED[2] == "not found";
    assert DETACHED[3] == "no such" && DETACHED[4] == "does not exist" && DETACHED[5] == "missing";
  }

  lemma AttachOkReads(r: Reply)
    ensures AttachOk(r) <==> ClaimsAttached(r)
  {
    hide Says, Contains, Lower, ReadBody;
    forall j | 0 <= j < 2 ensures Contains(Lower(Head(r)), ATTACHED[j]) <==> Says(r.body, ATTACHED[j]) {
      HeadSays(r.body, ATTACHED[j]);
    }
    assert ATTACHED[0] == "already exists" && ATTACHED[1] == "already attached";
  }

  /** A bare 500 claims nothing. */
  lemma NothingClaimed()
    ensures var r := Plainly(500, ""); !ClaimsGone(r) && !ClaimsDetached(r) && !ClaimsAttached(r)
  {
    hide SaysAt;
  }

  // ----- serving a request ---------------------------------------------------------------------

  /** How a server takes a request: whether it acts, what it would answer, what arrived of a body. */
  datatype How = How(effect: bool, status: int, body: string, extra: nat, stale: set<SnapId>, damage: Damage,
          foreign: TarStream)

  /** VictoriaLogs never claims success, or "already so", of what is not so. */
  function Truthful(reply: Reply, claims: bool, holds: bool): Reply {
    if claims && !holds then Plainly(500, "") else reply
  }

  function Answered(w: World, id: MsgId, reply: Reply): World {
    w.(replies := w.replies[id := reply])
  }

  function Numbers(first: nat, n: nat): (ids: seq<nat>)
    ensures |ids| == n && forall i :: 0 <= i < n ==> ids[i] == first + i
  {
    seq(n, i requires 0 <= i < n => first + i)
  }

  function Repeat(id: MsgId, n: nat): (ids: seq<MsgId>)
    ensures |ids| == n && forall i :: 0 <= i < n ==> ids[i] == id
  {
    if n == 0 then [] else [id] + Repeat(id, n - 1)
  }

  /** Snapshots are taken of attached partitions; a name of eight digits matches one partition at most. */
  function ServeCreate(w: World, id: MsgId, day: Day, how: How): World {
    if day !in w.held then
      if how.status == 200 then Answered(w, id, Reply(200, "", [], 0, true)) else Answered(w, id, Plainly(how.status, how.body))
    else if !how.effect then Answered(w, id, Reply(how.status, how.body, [], 0, false))
    else
      var ids := Numbers(|w.issued|, how.extra + 1);
      var w' := w.(issued := w.issued + Repeat(id, how.extra + 1), snaps := w.snaps + map s | s in ids :: day);
      if how.status == 200 then Answered(w', id, Reply(200, "", ids, 0, true)) else Answered(w', id, Plainly(how.status, how.body))
  }

  /** VictoriaLogs refuses to delete snapshots of partitions that are not attached. */
  function ServeDelete(w: World, id: MsgId, snap: SnapId, how: How): World {
    var gone := how.effect && snap in w.snaps && w.snaps[snap] in w.held;
    var snaps := if gone then w.snaps - {snap} else w.snaps;
    var reply := Plainly(how.status, how.body);
    Answered(w.(snaps := snaps), id, Truthful(reply, ClaimsGone(reply), snap !in snaps))
  }

  function ServeStale(w: World, id: MsgId, how: How): World {
    Answered(w.(snaps := w.snaps - how.stale), id, Plainly(how.status, how.body))
  }

  function ServeDetach(w: World, id: MsgId, day: Day, how: How): World {
    var held := if how.effect then w.held - {day} else w.held;
    var reply := Plainly(how.status, how.body);
    Answered(w.(held := held), id, Truthful(reply, ClaimsDetached(reply), day !in held))
  }

  /** The peer's attach endpoint: 200 when its client takes what VictoriaLogs answers for success, 500 otherwise. */
  function ServeAttach(w: World, id: MsgId, day: Day, how: How): World {
    if !PartitionName(day) then Answered(w, id, Plainly(400, ""))
    else
      var attached := if how.effect && day in w.dirs then w.attached + {day} else w.attached;
      var reply := Plainly(how.status, how.body);
      var ok := AttachOk(Truthful(reply, ClaimsAttached(reply), day in attached));
      Answered(w.(attached := attached), id, Plainly(if ok then 200 else 500, ""))
  }

  /** The archive that arrives for a day: that of the sealed partition, or whatever a stranger sent. */
  function Body(cfg: Config, day: Day, how: How): TarStream {
    if day in cfg.sealed then Deliver(Stream(cfg.sha1, cfg.sealed[day]), how.damage) else how.foreign
  }

  /** A request to receive or restore starts a handler; streaming a deleted snapshot breaks off. */
  function ServeUpload(cfg: Config, w: World, id: MsgId, day: Day, restore: bool, lost: bool, how: How): World {
    if !PartitionName(day) then Answered(w, id, Plainly(400, ""))
    else
      var how' := if lost then how.(damage := Damage([], 0, Broken), foreign := TarStream([], Broken)) else how;
      w.(handlers := w.handlers[id := Handler(day, restore, Body(cfg, day, how'), Begin)])
  }

  function ServeMsg(cfg: Config, w: World, id: MsgId, msg: Msg, how: How): World {
    match msg
    case CreateSnapshot(day) => ServeCreate(w, id, day, how)
    case DeleteSnapshot(snap) => ServeDelete(w, id, snap, how)
    case DeleteStale => ServeStale(w, id, how)
    case Detach(day) => ServeDetach(w, id, day, how)
    case Receive(day, snap) => ServeUpload(cfg, w, id, day, false, snap !in w.snaps, how)
    case Attach(day) => ServeAttach(w, id, day, how)
    case Restore(day) => ServeUpload(cfg, w, id, day, true, false, how)
  }

  function Serve(cfg: Config, w: World, id: MsgId, how: How): World {
    if id < |w.net| && id !in w.served then ServeMsg(cfg, w.(served := w.served + {id}), id, w.net[id].msg, how) else w
  }

  // ----- one step of a handler -----------------------------------------------------------------

  /** <DataPath>/partitions/.<day>.tmp-<n>; an empty data path is the working directory. */
  function TmpDir(cfg: Config, day: Day, tmp: MsgId): string {
    var partitions := if cfg.dataPath == "" then "partitions" else cfg.dataPath + "/partitions";
    partitions + "/" + ("." + day + ".tmp-" + Digits(tmp))
  }

  function Goto(w: World, id: MsgId, stage: Stage): World
    requires id in w.handlers
  {
    w.(handlers := w.handlers[id := w.handlers[id].(stage := stage)])
  }

  /** Extraction errors answer a receive with 400 and a restore with 500. */
  function Rejection(restore: bool, mismatch: bool): Reply {
    Plainly(if restore then 500 else 400, if mismatch then "archive checksum mismatch" else "bad archive")
  }

  function Exists409(): Reply { Plainly(409, "partition already exists") }

  function StepExtract(cfg: Config, w: World, id: MsgId, ok: bool): World
    requires id in w.handlers
  {
    var h := w.handlers[id];
    if !ok then Goto(w, id, Closing(Rejection(h.restore, false)))
    else
      var x := Unpack(cfg.sha1, TmpDir(cfg, h.day, id), h.stream);
      var w' := w.(temps := w.temps[id := x.nodes]);
      match x.result
      case Accepted(n, _) => Goto(w', id, Ready(n))
      case Rejected(_, err) => Goto(w', id, Closing(Rejection(h.restore, err.Mismatch?)))
  }

  /** os.Rename, atomic, failing when the final directory exists (or, with `ok` false, for any reason). */
  function StepRename(w: World, id: MsgId, bytes: nat, ok: bool): World
    requires id in w.handlers
  {
    var h := w.handlers[id];
    if !ok || h.day in w.dirs || id !in w.temps then Goto(w, id, Unmoved)
    else
      var w' := w.(dirs := w.dirs[h.day := w.temps[id]], temps := w.temps - {id},
                   installs := w.installs + [Install(h.day, id, h.stream)]);
      Goto(w', id, if h.restore then Attaching(bytes) else Closing(Reply(200, "", [], bytes, true)))
  }

  function StepHandler(cfg: Config, w: World, id: MsgId, ok: bool): World
    requires id in w.handlers
  {
    var h := w.handlers[id];
    match h.stage
    case Begin => Goto(w, id, if ok && h.day in w.dirs then Closing(Exists409()) else Vacant)
    case Vacant =>
      if ok then Goto(w.(temps := w.temps[id := map[]]), id, Made) else Goto(w, id, Closing(Plainly(500, "")))
    case Made => StepExtract(cfg, w, id, ok)
    case Ready(bytes) => StepRename(w, id, bytes, ok)
    case Unmoved => Goto(w, id, Closing(if ok && h.day in w.dirs then Exists409() else Plainly(500, "")))
    case Attaching(bytes) =>
      if ok then Goto(w.(attached := w.attached + {h.day}), id, Closing(Reply(202, "", [], bytes, true)))
      else Goto(w, id, Closing(Plainly(500, "")))
    case Closing(reply) => Goto(Answered(w.(temps := w.temps - {id}), id, reply), id, Over)
    case Over => w
  }

  // ----- everything that can happen outside the transferring process ---------------------------

  datatype Act =
    | Take(id: MsgId, how: How)
    | Step(id: MsgId, ok: bool)
    | Crash
    | Inject(msg: Msg)

  /**
   Other clients restore, attach, push and back up, and delete snapshots they were given the path of;
   only a transfer detaches.
   */
  predicate Harmless(w: World, msg: Msg) {
    !msg.Detach? && (msg.DeleteSnapshot? ==> msg.snap < |w.issued|)
  }

  function Do(cfg: Config, w: World, a: Act): World {
    match a
    case Take(id, how) => Serve(cfg, w, id, how)
    case Step(id, ok) => if id in w.handlers then StepHandler(cfg, w, id, ok) else w
    case Crash => w.(handlers := map[])
    case Inject(msg) => if Harmless(w, msg) then w.(net := w.net + [Packet(msg, false)]) else w
  }

  function Settle(cfg: Config, w: World, acts: seq<Act>): World
    decreases acts
  {
    if acts == [] then w else Settle(cfg, Do(cfg, w, acts[0]), acts[1..])
  }
}
