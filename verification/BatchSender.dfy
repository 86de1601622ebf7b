/** Sending one batch of a campaign: recipients one after the other, each through the first
    connection that still has room.

    What happens outside (the tables as they are at that moment, rendering, the network) comes
    in as one Visit for each recipient. */
module BatchSender {
  import opened Common

  type ConnectionId = string
  type RecipientId = int

  datatype Connection = Connection(owner: string, blocked: bool, maxPerHour: int, maxPerDay: int)

  type Table = map<ConnectionId, Connection>
  type Counts<!K> = map<K, nat>

  function Count<K>(counts: Counts<K>, k: K): nat {
    if k in counts then counts[k] else 0
  }

  function Bump<K>(counts: Counts<K>, k: K): Counts<K> {
    counts[k := Count(counts, k) + 1]
  }

  // ---- Choosing a connection ----

  /** The connections to choose from: the ones asked for, each once and in the order in which
      they first come, or else the fallback. */
  ghost predicate Normalized(raw: seq<ConnectionId>, ids: seq<ConnectionId>) {
    && Distinct(ids)
    && (forall id :: id in ids <==> id in raw && id != "")
    && (forall i, j :: 0 <= i < j < |ids| ==> First(raw, ids[i]) < First(raw, ids[j]))
  }

  function First(raw: seq<ConnectionId>, id: ConnectionId): nat {
    if raw == [] || raw[0] == id then 0 else 1 + First(raw[1..], id)
  }

  lemma {:induction false} FirstOfPrefix(raw: seq<ConnectionId>, n: nat, id: ConnectionId)
    requires n < |raw| && id !in raw[..n] && raw[n] == id
    ensures First(raw, id) == n
  {
    if n > 0 {
      assert raw[0] == raw[..n][0];
      assert raw[1..][..n - 1] == raw[..n][1..];
      FirstOfPrefix(raw[1..], n - 1, id);
    }
  }

  lemma {:induction false} FirstIsEarly(raw: seq<ConnectionId>, n: nat, id: ConnectionId)
    requires n <= |raw| && id in raw[..n]
    ensures First(raw, id) < n
  {
    if raw[0] != id {
      var i :| 0 <= i < n && raw[..n][i] == id;
      assert raw[1..][..n - 1][i - 1] == id;
      FirstIsEarly(raw[1..], n - 1, id);
    }
  }

  method NormalizeConnectionIds(raw: seq<ConnectionId>, fallback: ConnectionId) returns (ids: seq<ConnectionId>)
    ensures Distinct(ids) && "" !in ids
    ensures (exists id :: id in raw && id != "") ==> Normalized(raw, ids)
    ensures !(exists id :: id in raw && id != "") ==> ids == if fallback == "" then [] else [fallback]
  {
    ids := [];
    var seen: set<ConnectionId> := {};
    for i := 0 to |raw|
      invariant forall id :: id in seen <==> id in ids
      invariant Distinct(ids)
      invariant forall id :: id in ids <==> id in raw[..i] && id != ""
      invariant forall j, k :: 0 <= j < k < |ids| ==> First(raw, ids[j]) < First(raw, ids[k])
    {
      assert raw[..i + 1] == raw[..i] + [raw[i]];
      if raw[i] == "" || raw[i] in seen {
        continue;
      }
      forall j | 0 <= j < |ids|
        ensures First(raw, ids[j]) < First(raw, raw[i])
      {
        FirstIsEarly(raw, i, ids[j]);
        FirstOfPrefix(raw, i, raw[i]);
      }
      seen := seen + {raw[i]};
      ids := ids + [raw[i]];
    }
    assert raw[..|raw|] == raw;
    if ids == [] && fallback != "" {
      assert !exists id :: id in raw && id != "";
      ids := [fallback];
    } else if ids != [] {
      assert ids[0] in raw && ids[0] != "";
    }
  }

  /** A limit that is not positive does not limit. */
  predicate AtLimit(c: Connection, hour: nat, day: nat) {
    (c.maxPerHour > 0 && hour >= c.maxPerHour) || (c.maxPerDay > 0 && day >= c.maxPerDay)
  }

  predicate Usable(
      table: Table, owner: string, hour: Counts<ConnectionId>, day: Counts<ConnectionId>, id: ConnectionId)
  {
    && id in table && table[id].owner == owner && !table[id].blocked
    && !AtLimit(table[id], Count(hour, id), Count(day, id))
  }

  /** The first usable connection, or the number of connections. */
  ghost predicate IsPick(
      ids: seq<ConnectionId>, table: Table, owner: string, hour: Counts<ConnectionId>, day: Counts<ConnectionId>,
      k: nat)
  {
    && k <= |ids|
    && (forall j :: 0 <= j < k ==> !Usable(table, owner, hour, day, ids[j]))
    && (k < |ids| ==> Usable(table, owner, hour, day, ids[k]))
  }

  function Pick(
      ids: seq<ConnectionId>, table: Table, owner: string, hour: Counts<ConnectionId>, day: Counts<ConnectionId>)
    : (k: nat)
    ensures IsPick(ids, table, owner, hour, day, k)
  {
    if ids == [] || Usable(table, owner, hour, day, ids[0]) then 0
    else
      var k := Pick(ids[1..], table, owner, hour, day);
      assert forall j :: 0 < j <= k ==> ids[j] == ids[1..][j - 1] || j == |ids|;
      k + 1
  }

  lemma PickIsUnique(
      ids: seq<ConnectionId>, table: Table, owner: string, hour: Counts<ConnectionId>, day: Counts<ConnectionId>,
      k: nat)
    requires IsPick(ids, table, owner, hour, day, k)
    ensures k == Pick(ids, table, owner, hour, day)
  {
    var p := Pick(ids, table, owner, hour, day);
    assert !(k < p) && !(p < k);
  }

  method PickAvailableConnection(
      ids: seq<ConnectionId>, table: Table, owner: string, hour: Counts<ConnectionId>, day: Counts<ConnectionId>)
    returns (k: nat)
    ensures k == Pick(ids, table, owner, hour, day) <= |ids|
    ensures k < |ids| ==>
      var id := ids[k];
      && id in table && table[id].owner == owner && !table[id].blocked
      && (table[id].maxPerHour > 0 ==> Count(hour, id) < table[id].maxPerHour)
      && (table[id].maxPerDay > 0 ==> Count(day, id) < table[id].maxPerDay)
    ensures forall j :: 0 <= j < k ==>
      var id := ids[j];
      || id !in table || table[id].owner != owner || table[id].blocked
      || 0 < table[id].maxPerHour <= Count(hour, id) || 0 < table[id].maxPerDay <= Count(day, id)
  {
    for i := 0 to |ids|
      invariant forall j :: 0 <= j < i ==> !Usable(table, owner, hour, day, ids[j])
    {
      var id := ids[i];
      if id !in table || table[id].owner != owner || table[id].blocked {
        continue;
      }
      var row := table[id];
      var hourCount, dayCount := Count(hour, id), Count(day, id);
      if row.maxPerHour > 0 && hourCount >= row.maxPerHour {
        continue;
      }
      if row.maxPerDay > 0 && dayCount >= row.maxPerDay {
        continue;
      }
      PickIsUnique(ids, table, owner, hour, day, i);
      return i;
    }
    k := |ids|;
    PickIsUnique(ids, table, owner, hour, day, k);
  }

  // ---- One recipient ----

  datatype Status = Pending | Sent | InChain | Skipped | Failed

  /** How far an attempt gets: preparing it, the network call, which can fail although the message
      left, the delivery record, the counters, the log. */
  datatype Result = PrepareFails | NetworkFails | LostReply | RecordFails | LogFails | AllFine

  /** `recorded`: recording a failed attempt works. In chain mode the letter is sent by a function
      with sessions of its own, which reads the campaign's connections again; `marked`: it had
      already saved the recipient as failed when preparing raised. */
  datatype Visit =
    | Missing
    | CampaignPaused
    | CampaignCancelled
    | NoAddress(recorded: bool)
    | Refused
    | RenderFails
    | Attempt(table: Table, result: Result, recorded: bool)
    | ChainSkips
    | ChainAttempt(table: Table, result: Result, ids: seq<ConnectionId>, marked: bool)

  /** The loop's variables and the rows it changes. */
  datatype Tally = Tally(
    sent: nat,
    errors: nat,
    hour: Counts<ConnectionId>,
    day: Counts<ConnectionId>,
    statuses: map<RecipientId, Status>,
    batchSent: nat,
    batchErrors: nat)

  /** What left the house: messages for each connection and each recipient; those the loop did
      not count; calls after which it cannot know whether there is one it did not count; and
      attempts that failed after the message had left. */
  datatype Past = Past(
    delivered: Counts<ConnectionId>,
    uncounted: Counts<ConnectionId>,
    doubts: Counts<ConnectionId>,
    mails: Counts<RecipientId>,
    slips: Counts<RecipientId>)

  datatype State = State(tally: Tally, past: Past)

  datatype Ending = PausedEarly | CancelledEarly | Raised

  datatype Outcome = Continue(state: State) | Halt(state: State, ending: Ending)

  function StatusOf(t: Tally, r: RecipientId): Status {
    if r in t.statuses then t.statuses[r] else Pending
  }

  predicate Served(t: Tally, r: RecipientId) {
    StatusOf(t, r) in {Sent, InChain}
  }

  function Save(t: Tally, r: RecipientId, status: Status): Tally {
    t.(statuses := t.statuses[r := status])
  }

  function Fail(t: Tally, r: RecipientId): Tally {
    Save(t, r, Failed).(errors := t.errors + 1, batchErrors := t.batchErrors + 1)
  }

  /** The message is out and the rows of recipient and batch say so. */
  function Mark(t: Tally, r: RecipientId, status: Status): Tally {
    Save(t, r, status).(batchSent := t.batchSent + 1)
  }

  function Tick(t: Tally, c: ConnectionId): Tally {
    t.(sent := t.sent + 1, hour := Bump(t.hour, c), day := Bump(t.day, c))
  }

  /** An exception that leaves the loop undoes what this recipient changed in the loop's rows. */
  function Rollback(t: Tally, was: Tally): Tally {
    t.(statuses := was.statuses, batchSent := was.batchSent, batchErrors := was.batchErrors)
  }

  predicate Tries(v: Visit) {
    v.Attempt? || v.ChainAttempt?
  }

  function Choices(v: Visit, ids: seq<ConnectionId>): seq<ConnectionId> {
    if v.ChainAttempt? then v.ids else ids
  }

  /** The connection an attempt goes through, if there is one. */
  function Via(t: Tally, v: Visit, ids: seq<ConnectionId>, owner: string): (via: Option<ConnectionId>)
    requires Tries(v)
    ensures via.Some? ==> via.value in Choices(v, ids) && Usable(v.table, owner, t.hour, t.day, via.value)
    ensures via.Some? ==> via.value in if v.ChainAttempt? then v.ids else ids
  {
    var list := Choices(v, ids);
    var k := Pick(list, v.table, owner, t.hour, t.day);
    if k < |list| then Some(list[k]) else None
  }

  predicate Departs(v: Visit) {
    Tries(v) && v.result != PrepareFails && v.result != NetworkFails
  }

  /** The message left and the loop counts it. */
  predicate IsCounted(v: Visit) {
    && Departs(v) && v.result != LostReply && v.result != RecordFails
    && (v.ChainAttempt? ==> v.result == AllFine)
  }

  /** After this call the service cannot be sure that no uncounted message left. */
  predicate Doubtful(v: Visit) {
    Tries(v) && v.result != PrepareFails && !IsCounted(v)
  }

  /** The rows of recipient and batch, as far as the attempt gets. */
  function Written(t: Tally, r: RecipientId, v: Visit): (u: Tally)
    requires Tries(v)
    ensures u.hour == t.hour && u.day == t.day && u.sent == t.sent && u.errors == t.errors
  {
    match v.result
    case PrepareFails => if v.ChainAttempt? && v.marked then Save(t, r, Failed) else t
    case RecordFails => if v.ChainAttempt? then t else Mark(t, r, Sent)
    case LogFails => if v.ChainAttempt? then Save(t, r, InChain) else Mark(t, r, Sent)
    case AllFine => Mark(t, r, if v.ChainAttempt? then InChain else Sent)
    case _ => t
  }

  function Reached(t: Tally, r: RecipientId, c: ConnectionId, v: Visit): Tally
    requires Tries(v)
  {
    var u := Written(t, r, v);
    if IsCounted(v) then Tick(u, c) else u
  }

  function Tried(t: Tally, r: RecipientId, c: ConnectionId, v: Visit): Tally
    requires Tries(v)
  {
    if v.result == AllFine then Reached(t, r, c, v) else Fail(Reached(t, r, c, v), r)
  }

  /** What a rollback goes back to: rows saved by the other function's sessions stay. */
  function Kept(t: Tally, r: RecipientId, c: ConnectionId, v: Visit): Tally
    requires Tries(v)
  {
    if v.ChainAttempt? then Reached(t, r, c, v) else t
  }

  function Leave(p: Past, c: ConnectionId, r: RecipientId): Past {
    p.(delivered := Bump(p.delivered, c), mails := Bump(p.mails, r))
  }

  function Happened(p: Past, r: RecipientId, c: ConnectionId, v: Visit): Past
    requires Tries(v)
  {
    if v.result == PrepareFails then p
    else if v.result == NetworkFails then p.(doubts := Bump(p.doubts, c))
    else
      Leave(p, c, r).(
        uncounted := if IsCounted(v) then p.uncounted else Bump(p.uncounted, c),
        doubts := if IsCounted(v) then p.doubts else Bump(p.doubts, c),
        slips := if v.result == AllFine then p.slips else Bump(p.slips, r))
  }

  function Closed(s: State, was: Tally, fine: bool, recorded: bool, retry: bool): Outcome {
    if fine || (recorded && !retry) then Continue(s)
    else Halt(s.(tally := Rollback(s.tally, was)), Raised)
  }

  function Try(s: State, r: RecipientId, v: Visit, ids: seq<ConnectionId>, owner: string, retry: bool): Outcome
    requires Tries(v)
  {
    var t, recorded := s.tally, v.ChainAttempt? || v.recorded;
    match Via(t, v, ids, owner)
    case None => Closed(s.(tally := Fail(t, r)), t, false, recorded, retry)
    case Some(c) =>
      var next := State(Tried(t, r, c, v), Happened(s.past, r, c, v));
      Closed(next, Kept(t, r, c, v), v.result == AllFine, recorded, retry)
  }

  function Serve(s: State, r: RecipientId, v: Visit, ids: seq<ConnectionId>, owner: string, retry: bool): Outcome {
    if v.Missing? then Continue(s)
    else if v.CampaignPaused? then Halt(s, PausedEarly)
    else if v.CampaignCancelled? then Halt(s, CancelledEarly)
    else if Served(s.tally, r) then Continue(s)
    else if Tries(v) then Try(s, r, v, ids, owner, retry)
    else
      match v
      case NoAddress(recorded) => Closed(s.(tally := Fail(s.tally, r)), s.tally, false, recorded, false)
      case RenderFails => Halt(s, Raised)
      case ChainSkips => Continue(s.(tally := Save(s.tally, r, Skipped)))
      case _ => Continue(s)
  }

  function Start(statuses: map<RecipientId, Status>): State {
    State(Tally(0, 0, map[], map[], statuses, 0, 0), Past(map[], map[], map[], map[], map[]))
  }

  datatype Batch = Batch(
    recipients: seq<RecipientId>,
    visits: seq<Visit>,
    ids: seq<ConnectionId>,
    owner: string,
    retry: bool)

  predicate BatchOk(b: Batch) {
    |b.visits| == |b.recipients|
  }

  function Run(b: Batch, s: State, n: nat): Outcome
    requires BatchOk(b) && n <= |b.recipients|
  {
    if n == 0 then Continue(s)
    else
      var before := Run(b, s, n - 1);
      if before.Halt? then before
      else Serve(before.state, b.recipients[n - 1], b.visits[n - 1], b.ids, b.owner, b.retry)
  }

  // ---- What holds after every recipient ----

  function Sum(ids: seq<ConnectionId>, counts: Counts<ConnectionId>): nat {
    if ids == [] then 0 else Sum(ids[..|ids| - 1], counts) + Count(counts, ids[|ids| - 1])
  }

  lemma {:induction false} SumOfBump(ids: seq<ConnectionId>, counts: Counts<ConnectionId>, c: ConnectionId)
    requires Distinct(ids)
    ensures Sum(ids, Bump(counts, c)) == Sum(ids, counts) + if c in ids then 1 else 0
  {
    if ids != [] {
      var rest, last := ids[..|ids| - 1], ids[|ids| - 1];
      SumOfBump(rest, counts, c);
      assert ids == rest + [last];
    }
  }

  lemma {:induction false} SumOfNothing(ids: seq<ConnectionId>)
    ensures Sum(ids, map[]) == 0
  {
    if ids != [] {
      SumOfNothing(ids[..|ids| - 1]);
    }
  }

  /** Every connection the batch can choose is listed once. */
  ghost predicate Covers(all: seq<ConnectionId>, b: Batch) {
    && Distinct(all)
    && forall id, i :: 0 <= i < |b.visits| && id in Choices(b.visits[i], b.ids) ==> id in all
  }

  /** The visit tries to send through the connection and gets past preparing the message. */
  predicate Takes(t: Tally, r: RecipientId, v: Visit, ids: seq<ConnectionId>, owner: string, c: ConnectionId) {
    !Served(t, r) && Tries(v) && v.result != PrepareFails && Via(t, v, ids, owner) == Some(c)
  }

  lemma TriedNumbers(t: Tally, r: RecipientId, c: ConnectionId, v: Visit)
    requires Tries(v)
    ensures var u := Tried(t, r, c, v);
      && u.hour == (if IsCounted(v) then Bump(t.hour, c) else t.hour)
      && u.day == (if IsCounted(v) then Bump(t.day, c) else t.day)
      && u.sent == t.sent + (if IsCounted(v) then 1 else 0)
  {
  }

  lemma HappenedNumbers(p: Past, r: RecipientId, c: ConnectionId, v: Visit)
    requires Tries(v)
    ensures var q := Happened(p, r, c, v);
      && q.delivered == (if Departs(v) then Bump(p.delivered, c) else p.delivered)
      && q.uncounted == (if Departs(v) && !IsCounted(v) then Bump(p.uncounted, c) else p.uncounted)
      && q.doubts == (if Doubtful(v) then Bump(p.doubts, c) else p.doubts)
  {
  }

  lemma TryNumbers(
      s: State, r: RecipientId, v: Visit, ids: seq<ConnectionId>, owner: string, retry: bool)
    requires Tries(v)
    ensures var via, next := Via(s.tally, v, ids, owner), Try(s, r, v, ids, owner, retry).state;
      if via.None? then
        && next.tally.hour == s.tally.hour && next.tally.day == s.tally.day && next.tally.sent == s.tally.sent
        && next.past == s.past
      else
        && next.tally.hour == Tried(s.tally, r, via.value, v).hour
        && next.tally.day == Tried(s.tally, r, via.value, v).day
        && next.tally.sent == Tried(s.tally, r, via.value, v).sent
        && next.past == Happened(s.past, r, via.value, v)
  {
  }

  /** What one visit does to the numbers of a connection. */
  lemma ServeNumbers(
      s: State, r: RecipientId, v: Visit, ids: seq<ConnectionId>, owner: string, retry: bool, c: ConnectionId)
    ensures var next, takes := Serve(s, r, v, ids, owner, retry).state, Takes(s.tally, r, v, ids, owner, c);
      && Count(next.tally.hour, c) == Count(s.tally.hour, c) + (if takes && IsCounted(v) then 1 else 0)
      && Count(next.tally.day, c) == Count(s.tally.day, c) + (if takes && IsCounted(v) then 1 else 0)
      && Count(next.past.uncounted, c)
         == Count(s.past.uncounted, c) + (if takes && Departs(v) && !IsCounted(v) then 1 else 0)
      && Count(next.past.doubts, c) == Count(s.past.doubts, c) + (if takes && Doubtful(v) then 1 else 0)
      && Count(next.past.delivered, c) == Count(s.past.delivered, c) + (if takes && Departs(v) then 1 else 0)
  {
    if Tries(v) {
      TryNumbers(s, r, v, ids, owner, retry);
      var via := Via(s.tally, v, ids, owner);
      if via.Some? {
        TriedNumbers(s.tally, r, via.value, v);
        HappenedNumbers(s.past, r, via.value, v);
      }
    }
  }

  /** The counters agree with each other and with the number sent, and together with the
      uncounted messages they make up what was delivered. */
  ghost predicate CountsOk(all: seq<ConnectionId>, s: State) {
    && s.tally.hour == s.tally.day
    && Sum(all, s.tally.hour) == s.tally.sent
    && (forall c :: Count(s.past.delivered, c) == Count(s.tally.hour, c) + Count(s.past.uncounted, c))
  }

  /** Nobody gets a second message unless an attempt failed after an earlier one had left. */
  ghost predicate MailsOk(s: State) {
    forall r :: Count(s.past.mails, r) <= Count(s.past.slips, r) + if Served(s.tally, r) then 1 else 0
  }

  lemma TryKeepsCounts(
      all: seq<ConnectionId>, s: State, r: RecipientId, v: Visit, ids: seq<ConnectionId>, owner: string, retry: bool)
    requires Tries(v) && CountsOk(all, s) && Distinct(all)
    requires forall id :: id in Choices(v, ids) ==> id in all
    ensures CountsOk(all, Try(s, r, v, ids, owner, retry).state)
  {
    var via := Via(s.tally, v, ids, owner);
    TryNumbers(s, r, v, ids, owner, retry);
    if via.Some? {
      TriedNumbers(s.tally, r, via.value, v);
      HappenedNumbers(s.past, r, via.value, v);
      SumOfBump(all, s.tally.hour, via.value);
    }
  }

  lemma ServeKeepsCounts(
      all: seq<ConnectionId>, s: State, r: RecipientId, v: Visit, ids: seq<ConnectionId>, owner: string, retry: bool)
    requires CountsOk(all, s) && Distinct(all)
    requires forall id :: id in Choices(v, ids) ==> id in all
    ensures CountsOk(all, Serve(s, r, v, ids, owner, retry).state)
  {
    if Tries(v) {
      TryKeepsCounts(all, s, r, v, ids, owner, retry);
    }
  }

  lemma HappenedMails(p: Past, r: RecipientId, c: ConnectionId, v: Visit)
    requires Tries(v)
    ensures var q := Happened(p, r, c, v);
      && q.mails == (if Departs(v) then Bump(p.mails, r) else p.mails)
      && q.slips == (if Departs(v) && v.result != AllFine then Bump(p.slips, r) else p.slips)
  {
  }

  lemma WrittenIsOneRow(t: Tally, r: RecipientId, v: Visit, q: RecipientId)
    requires Tries(v)
    ensures q != r ==> StatusOf(Written(t, r, v), q) == StatusOf(t, q)
    ensures v.result == AllFine ==> Served(Written(t, r, v), r)
  {
  }

  lemma TrySavesOneRow(
      s: State, r: RecipientId, v: Visit, ids: seq<ConnectionId>, owner: string, retry: bool, q: RecipientId)
    requires Tries(v)
    ensures var t := Try(s, r, v, ids, owner, retry).state.tally;
      && (q != r ==> StatusOf(t, q) == StatusOf(s.tally, q))
      && (Via(s.tally, v, ids, owner).Some? && v.result == AllFine ==> Served(t, r))
  {
    WrittenIsOneRow(s.tally, r, v, q);
  }

  lemma TryKeepsMails(s: State, r: RecipientId, v: Visit, ids: seq<ConnectionId>, owner: string, retry: bool)
    requires Tries(v) && MailsOk(s) && !Served(s.tally, r)
    ensures MailsOk(Try(s, r, v, ids, owner, retry).state)
  {
    var via, next := Via(s.tally, v, ids, owner), Try(s, r, v, ids, owner, retry).state;
    TryNumbers(s, r, v, ids, owner, retry);
    if via.Some? {
      HappenedMails(s.past, r, via.value, v);
    }
    forall q
      ensures Count(next.past.mails, q) <= Count(next.past.slips, q) + if Served(next.tally, q) then 1 else 0
    {
      TrySavesOneRow(s, r, v, ids, owner, retry, q);
      assert Count(s.past.mails, q) <= Count(s.past.slips, q) + if Served(s.tally, q) then 1 else 0;
    }
  }

  lemma SaveKeepsMails(s: State, r: RecipientId, status: Status)
    requires MailsOk(s) && !Served(s.tally, r)
    ensures MailsOk(s.(tally := Save(s.tally, r, status))) && MailsOk(s.(tally := Fail(s.tally, r)))
  {
  }

  lemma ServeKeepsMails(s: State, r: RecipientId, v: Visit, ids: seq<ConnectionId>, owner: string, retry: bool)
    requires MailsOk(s)
    ensures MailsOk(Serve(s, r, v, ids, owner, retry).state)
  {
    if !Served(s.tally, r) {
      SaveKeepsMails(s, r, Skipped);
      if Tries(v) {
        TryKeepsMails(s, r, v, ids, owner, retry);
      }
    }
  }

  lemma {:induction false} CountersAddUp(
      b: Batch, statuses: map<RecipientId, Status>, n: nat, all: seq<ConnectionId>)
    requires BatchOk(b) && n <= |b.recipients| && Covers(all, b)
    ensures CountsOk(all, Run(b, Start(statuses), n).state)
  {
    if n == 0 {
      SumOfNothing(all);
    } else {
      CountersAddUp(b, statuses, n - 1, all);
      var before := Run(b, Start(statuses), n - 1);
      if before.Continue? {
        ServeKeepsCounts(all, before.state, b.recipients[n - 1], b.visits[n - 1], b.ids, b.owner, b.retry);
      }
    }
  }

  lemma {:induction false} NobodyIsMailedTwice(b: Batch, statuses: map<RecipientId, Status>, n: nat, r: RecipientId)
    requires BatchOk(b) && n <= |b.recipients|
    ensures MailsOk(Run(b, Start(statuses), n).state)
    ensures var past := Run(b, Start(statuses), n).state.past; Count(past.mails, r) <= Count(past.slips, r) + 1
  {
    if n > 0 {
      NobodyIsMailedTwice(b, statuses, n - 1, r);
      var before := Run(b, Start(statuses), n - 1);
      if before.Continue? {
        ServeKeepsMails(before.state, b.recipients[n - 1], b.visits[n - 1], b.ids, b.owner, b.retry);
      }
    }
  }

  // ---- How a batch ends ----

  function After(b: Batch, statuses: map<RecipientId, Status>, n: nat): State
    requires BatchOk(b) && n <= |b.recipients|
  {
    Run(b, Start(statuses), n).state
  }

  /** There is a connection with room for the attempt. */
  predicate HasConnection(t: Tally, v: Visit, b: Batch)
    requires Tries(v)
  {
    exists id :: id in Choices(v, b.ids) && Usable(v.table, b.owner, t.hour, t.day, id)
  }

  predicate FailsToSend(t: Tally, v: Visit, b: Batch)
    requires Tries(v)
  {
    v.result != AllFine || !HasConnection(t, v, b)
  }

  /** Whether a visit stops the batch, and how it ends then: by a pause, by a cancellation, or by
      an exception, which is a failure to render or one that is to be retried or that cannot be
      recorded. */
  function StopOf(t: Tally, r: RecipientId, v: Visit, b: Batch): Option<Ending> {
    match v
    case CampaignPaused => Some(PausedEarly)
    case CampaignCancelled => Some(CancelledEarly)
    case RenderFails => if Served(t, r) then None else Some(Raised)
    case NoAddress(recorded) => if Served(t, r) || recorded then None else Some(Raised)
    case Attempt(_, _, recorded) =>
      if !Served(t, r) && FailsToSend(t, v, b) && (b.retry || !recorded) then Some(Raised) else None
    case ChainAttempt(_, _, _, _) =>
      if !Served(t, r) && FailsToSend(t, v, b) && b.retry then Some(Raised) else None
    case _ => None
  }

  function StopAt(b: Batch, statuses: map<RecipientId, Status>, i: nat): Option<Ending>
    requires BatchOk(b) && i < |b.recipients|
  {
    StopOf(After(b, statuses, i).tally, b.recipients[i], b.visits[i], b)
  }

  lemma ViaIff(t: Tally, v: Visit, b: Batch)
    requires Tries(v)
    ensures HasConnection(t, v, b) <==> Via(t, v, b.ids, b.owner).Some?
  {
    var list := Choices(v, b.ids);
    if Via(t, v, b.ids, b.owner).None? {
      forall id | id in list
        ensures !Usable(v.table, b.owner, t.hour, t.day, id)
      {
        var j :| 0 <= j < |list| && list[j] == id;
      }
    }
  }

  lemma TryStops(s: State, r: RecipientId, v: Visit, b: Batch)
    requires Tries(v) && !Served(s.tally, r)
    ensures var o := Try(s, r, v, b.ids, b.owner, b.retry);
      if StopOf(s.tally, r, v, b).None? then o.Continue? else o.Halt? && Some(o.ending) == StopOf(s.tally, r, v, b)
  {
    ViaIff(s.tally, v, b);
  }

  lemma ServeStops(s: State, r: RecipientId, v: Visit, b: Batch)
    ensures var o := Serve(s, r, v, b.ids, b.owner, b.retry);
      if StopOf(s.tally, r, v, b).None? then o.Continue? else o.Halt? && Some(o.ending) == StopOf(s.tally, r, v, b)
  {
    if Tries(v) && !Served(s.tally, r) {
      TryStops(s, r, v, b);
    }
  }

  lemma {:induction false} HaltStays(b: Batch, s: State, m: nat, n: nat)
    requires BatchOk(b) && m <= n <= |b.recipients| && Run(b, s, m).Halt?
    ensures Run(b, s, n) == Run(b, s, m)
    decreases n
  {
    if m < n {
      HaltStays(b, s, m, n - 1);
    }
  }

  lemma {:induction false} GoesOnBefore(b: Batch, statuses: map<RecipientId, Status>, n: nat)
    requires BatchOk(b) && n <= |b.recipients|
    requires forall j :: 0 <= j < n ==> StopAt(b, statuses, j).None?
    ensures Run(b, Start(statuses), n).Continue?
  {
    if n > 0 {
      GoesOnBefore(b, statuses, n - 1);
      ServeStops(After(b, statuses, n - 1), b.recipients[n - 1], b.visits[n - 1], b);
      assert StopAt(b, statuses, n - 1).None?;
    }
  }

  /** The first visit that stops the batch decides how it ends, and nothing changes after it. */
  lemma FirstStopDecides(b: Batch, statuses: map<RecipientId, Status>, i: nat, n: nat)
    requires BatchOk(b) && i < n <= |b.recipients|
    requires StopAt(b, statuses, i).Some? && forall j :: 0 <= j < i ==> StopAt(b, statuses, j).None?
    ensures Run(b, Start(statuses), n) == Halt(After(b, statuses, i + 1), StopAt(b, statuses, i).value)
  {
    GoesOnBefore(b, statuses, i);
    ServeStops(After(b, statuses, i), b.recipients[i], b.visits[i], b);
    HaltStays(b, Start(statuses), i + 1, n);
  }

  /** A batch runs to its end if and only if no visit stops it. */
  lemma {:induction false} RunsOnIff(b: Batch, statuses: map<RecipientId, Status>, n: nat)
    requires BatchOk(b) && n <= |b.recipients|
    ensures Run(b, Start(statuses), n).Continue? <==> forall i :: 0 <= i < n ==> StopAt(b, statuses, i).None?
  {
    if forall i :: 0 <= i < n ==> StopAt(b, statuses, i).None? {
      GoesOnBefore(b, statuses, n);
    } else {
      var i := FirstStop(b, statuses, n);
      FirstStopDecides(b, statuses, i, n);
    }
  }

  lemma {:induction false} FirstStop(b: Batch, statuses: map<RecipientId, Status>, n: nat) returns (i: nat)
    requires BatchOk(b) && n <= |b.recipients|
    requires exists k :: 0 <= k < n && StopAt(b, statuses, k).Some?
    ensures i < n && StopAt(b, statuses, i).Some? && forall j :: 0 <= j < i ==> StopAt(b, statuses, j).None?
  {
    i := 0;
    while StopAt(b, statuses, i).None?
      decreases n - i
      invariant i < n && forall j :: 0 <= j < i ==> StopAt(b, statuses, j).None?
    {
      i := i + 1;
    }
  }

  // ---- What a visit leaves behind ----

  /** The rows of an ordinary attempt: sent and counted as far as it got, failed on top of that when
      something went wrong, and untouched when an exception stops the batch. */
  predicate AttemptLeaves(t: Tally, u: Tally, r: RecipientId, v: Visit, b: Batch)
    requires v.Attempt?
  {
    var goes, fails, stops := HasConnection(t, v, b), FailsToSend(t, v, b), StopOf(t, r, v, b).Some?;
    && StatusOf(u, r) == (if stops then StatusOf(t, r) else if fails then Failed else Sent)
    && u.sent == t.sent + (if goes && (v.result == LogFails || v.result == AllFine) then 1 else 0)
    && u.batchSent == t.batchSent
       + (if goes && !stops && (v.result == RecordFails || v.result == LogFails || v.result == AllFine) then 1 else 0)
    && u.errors == t.errors + (if fails then 1 else 0)
    && u.batchErrors == t.batchErrors + (if fails && !stops then 1 else 0)
  }

  /** In chain mode a send counts only when all went well, and what the sending function saved stays
      when an exception stops the batch. */
  predicate ChainLeaves(t: Tally, u: Tally, r: RecipientId, v: Visit, b: Batch)
    requires v.ChainAttempt?
  {
    var goes, fails, stops := HasConnection(t, v, b), FailsToSend(t, v, b), StopOf(t, r, v, b).Some?;
    && StatusOf(u, r) ==
       (if !fails then InChain
        else if !stops then Failed
        else if goes && v.result == LogFails then InChain
        else if goes && v.result == PrepareFails && v.marked then Failed else StatusOf(t, r))
    && u.sent == t.sent + (if fails then 0 else 1)
    && u.batchSent == t.batchSent + (if fails then 0 else 1)
    && u.errors == t.errors + (if fails then 1 else 0)
    && u.batchErrors == t.batchErrors + (if fails && !stops then 1 else 0)
  }

  predicate SameNumbers(t: Tally, u: Tally) {
    u.sent == t.sent && u.errors == t.errors && u.batchSent == t.batchSent && u.batchErrors == t.batchErrors
  }

  predicate VisitLeaves(t: Tally, u: Tally, r: RecipientId, v: Visit, b: Batch) {
    if Served(t, r) then u == t
    else
      match v
      case NoAddress(recorded) =>
        && StatusOf(u, r) == (if recorded then Failed else StatusOf(t, r))
        && u.errors == t.errors + 1 && u.batchErrors == t.batchErrors + (if recorded then 1 else 0)
        && u.sent == t.sent && u.batchSent == t.batchSent
      case ChainSkips => StatusOf(u, r) == Skipped && SameNumbers(t, u)
      case Attempt(_, _, _) => AttemptLeaves(t, u, r, v, b)
      case ChainAttempt(_, _, _, _) => ChainLeaves(t, u, r, v, b)
      case _ => u == t
  }

  /** A message left for the recipient exactly when the call went through, whether or not the loop
      learned of it; a failure after that is a slip. */
  predicate MailsLeave(t: Tally, p: Past, q: Past, r: RecipientId, v: Visit, b: Batch) {
    var leaves := && !Served(t, r) && Tries(v) && HasConnection(t, v, b)
                  && v.result != PrepareFails && v.result != NetworkFails;
    && Count(q.mails, r) == Count(p.mails, r) + (if leaves then 1 else 0)
    && Count(q.slips, r) == Count(p.slips, r) + (if leaves && v.result != AllFine then 1 else 0)
  }

  lemma AttemptLeavesRows(s: State, r: RecipientId, v: Visit, b: Batch)
    requires v.Attempt? && !Served(s.tally, r)
    ensures AttemptLeaves(s.tally, Try(s, r, v, b.ids, b.owner, b.retry).state.tally, r, v, b)
  {
    ViaIff(s.tally, v, b);
  }

  lemma ChainLeavesRows(s: State, r: RecipientId, v: Visit, b: Batch)
    requires v.ChainAttempt? && !Served(s.tally, r)
    ensures ChainLeaves(s.tally, Try(s, r, v, b.ids, b.owner, b.retry).state.tally, r, v, b)
  {
    ViaIff(s.tally, v, b);
  }

  lemma TryLeavesMails(s: State, r: RecipientId, v: Visit, b: Batch)
    requires Tries(v) && !Served(s.tally, r)
    ensures MailsLeave(s.tally, s.past, Try(s, r, v, b.ids, b.owner, b.retry).state.past, r, v, b)
  {
    ViaIff(s.tally, v, b);
    TryNumbers(s, r, v, b.ids, b.owner, b.retry);
    var via := Via(s.tally, v, b.ids, b.owner);
    if via.Some? {
      HappenedMails(s.past, r, via.value, v);
    }
  }

  lemma ServeLeaves(s: State, r: RecipientId, v: Visit, b: Batch, q: RecipientId)
    ensures var next := Serve(s, r, v, b.ids, b.owner, b.retry).state;
      && VisitLeaves(s.tally, next.tally, r, v, b) && MailsLeave(s.tally, s.past, next.past, r, v, b)
      && (q != r ==> StatusOf(next.tally, q) == StatusOf(s.tally, q))
  {
    if Tries(v) && !Served(s.tally, r) {
      TryLeavesMails(s, r, v, b);
      TrySavesOneRow(s, r, v, b.ids, b.owner, b.retry, q);
      if v.Attempt? {
        AttemptLeavesRows(s, r, v, b);
      } else {
        ChainLeavesRows(s, r, v, b);
      }
    }
  }

  /** Every visit of a batch that still goes on leaves exactly these rows, numbers and messages, and
      no other recipient's row changes. */
  lemma VisitsLeave(b: Batch, statuses: map<RecipientId, Status>, i: nat, q: RecipientId)
    requires BatchOk(b) && i < |b.recipients| && Run(b, Start(statuses), i).Continue?
    ensures var s, next, r, v := After(b, statuses, i), After(b, statuses, i + 1), b.recipients[i], b.visits[i];
      && VisitLeaves(s.tally, next.tally, r, v, b) && MailsLeave(s.tally, s.past, next.past, r, v, b)
      && (q != r ==> StatusOf(next.tally, q) == StatusOf(s.tally, q))
  {
    ServeLeaves(After(b, statuses, i), b.recipients[i], b.visits[i], b, q);
  }

  // ---- Limits ----

  predicate Limits(v: Visit, c: ConnectionId, limit: nat) {
    Tries(v) && c in v.table ==> 0 < v.table[c].maxPerHour <= limit || 0 < v.table[c].maxPerDay <= limit
  }

  /** Whenever the connection is looked up, one of its limits is positive and at most `limit`. */
  ghost predicate LimitedTo(b: Batch, c: ConnectionId, limit: nat) {
    forall i :: 0 <= i < |b.visits| ==> Limits(b.visits[i], c, limit)
  }

  function Counted(b: Batch, statuses: map<RecipientId, Status>, n: nat, c: ConnectionId): nat
    requires BatchOk(b) && n <= |b.recipients|
  {
    Count(After(b, statuses, n).tally.hour, c)
  }

  function Uncounted(b: Batch, statuses: map<RecipientId, Status>, n: nat, c: ConnectionId): nat
    requires BatchOk(b) && n <= |b.recipients|
  {
    Count(After(b, statuses, n).past.uncounted, c)
  }

  function Delivered(b: Batch, statuses: map<RecipientId, Status>, n: nat, c: ConnectionId): nat
    requires BatchOk(b) && n <= |b.recipients|
  {
    Count(After(b, statuses, n).past.delivered, c)
  }

  function Doubts(b: Batch, statuses: map<RecipientId, Status>, n: nat, c: ConnectionId): nat
    requires BatchOk(b) && n <= |b.recipients|
  {
    Count(After(b, statuses, n).past.doubts, c)
  }

  /** The i-th visit is made and goes through the connection to the network. */
  predicate Reaches(b: Batch, statuses: map<RecipientId, Status>, i: nat, c: ConnectionId)
    requires BatchOk(b) && i < |b.recipients|
  {
    && Run(b, Start(statuses), i).Continue?
    && Takes(After(b, statuses, i).tally, b.recipients[i], b.visits[i], b.ids, b.owner, c)
  }

  lemma NextNumbers(b: Batch, statuses: map<RecipientId, Status>, i: nat, c: ConnectionId)
    requires BatchOk(b) && i < |b.recipients|
    ensures var reaches, v := Reaches(b, statuses, i, c), b.visits[i];
      && Counted(b, statuses, i + 1, c)
         == Counted(b, statuses, i, c) + (if reaches && IsCounted(v) then 1 else 0)
      && Uncounted(b, statuses, i + 1, c)
         == Uncounted(b, statuses, i, c) + (if reaches && Departs(v) && !IsCounted(v) then 1 else 0)
      && Doubts(b, statuses, i + 1, c) == Doubts(b, statuses, i, c) + (if reaches && Doubtful(v) then 1 else 0)
      && Delivered(b, statuses, i + 1, c) == Delivered(b, statuses, i, c) + (if reaches && Departs(v) then 1 else 0)
  {
    var before := Run(b, Start(statuses), i);
    if before.Continue? {
      ServeNumbers(before.state, b.recipients[i], b.visits[i], b.ids, b.owner, b.retry, c);
    }
  }

  lemma {:induction false} CountersOf(b: Batch, statuses: map<RecipientId, Status>, n: nat, c: ConnectionId)
    requires BatchOk(b) && n <= |b.recipients|
    ensures Count(After(b, statuses, n).tally.day, c) == Counted(b, statuses, n, c)
    ensures Delivered(b, statuses, n, c) == Counted(b, statuses, n, c) + Uncounted(b, statuses, n, c)
  {
    if n > 0 {
      CountersOf(b, statuses, n - 1, c);
      var before := Run(b, Start(statuses), n - 1);
      if before.Continue? {
        ServeNumbers(before.state, b.recipients[n - 1], b.visits[n - 1], b.ids, b.owner, b.retry, c);
      }
    }
  }

  lemma {:induction false} HourIsDay(b: Batch, statuses: map<RecipientId, Status>, n: nat)
    requires BatchOk(b) && n <= |b.recipients|
    ensures After(b, statuses, n).tally.hour == After(b, statuses, n).tally.day
  {
    if n > 0 {
      HourIsDay(b, statuses, n - 1);
      var before, v := Run(b, Start(statuses), n - 1), b.visits[n - 1];
      if before.Continue? && Tries(v) {
        var r, via := b.recipients[n - 1], Via(before.state.tally, v, b.ids, b.owner);
        TryNumbers(before.state, r, v, b.ids, b.owner, b.retry);
        if via.Some? {
          TriedNumbers(before.state.tally, r, via.value, v);
        }
      }
    }
  }

  lemma NextKeepsLimit(b: Batch, statuses: map<RecipientId, Status>, i: nat, c: ConnectionId, limit: nat)
    requires BatchOk(b) && i < |b.recipients| && Limits(b.visits[i], c, limit)
    requires Counted(b, statuses, i, c) <= limit
    ensures Counted(b, statuses, i + 1, c) <= limit
  {
    CountersOf(b, statuses, i, c);
    NextNumbers(b, statuses, i, c);
  }

  /** Through the whole batch the counted sends of a connection stay within its smaller positive
      limit; its messages exceed that by at most those the loop failed to count. */
  lemma {:induction false} SendsStayWithinLimits(
      b: Batch, statuses: map<RecipientId, Status>, n: nat, c: ConnectionId, limit: nat)
    requires BatchOk(b) && n <= |b.recipients| && LimitedTo(b, c, limit)
    ensures Counted(b, statuses, n, c) == Count(After(b, statuses, n).tally.day, c) <= limit
    ensures Delivered(b, statuses, n, c) <= limit + Uncounted(b, statuses, n, c)
  {
    if n > 0 {
      SendsStayWithinLimits(b, statuses, n - 1, c, limit);
      NextKeepsLimit(b, statuses, n - 1, c, limit);
    }
    CountersOf(b, statuses, n, c);
  }

  /** A message leaves through the connection although as many as the limit have left already. */
  predicate Overruns(b: Batch, statuses: map<RecipientId, Status>, i: nat, c: ConnectionId, limit: nat)
    requires BatchOk(b) && i < |b.recipients|
  {
    && Reaches(b, statuses, i, c) && Departs(b.visits[i])
    && Counted(b, statuses, i, c) + Uncounted(b, statuses, i, c) >= limit
  }

  lemma NextOverrun(b: Batch, statuses: map<RecipientId, Status>, i: nat, c: ConnectionId, limit: nat)
    requires BatchOk(b) && i < |b.recipients|
    ensures Delivered(b, statuses, i, c) <= Delivered(b, statuses, i + 1, c)
    ensures Delivered(b, statuses, i, c) <= limit
      ==> (Delivered(b, statuses, i + 1, c) <= limit <==> !Overruns(b, statuses, i, c, limit))
  {
    NextNumbers(b, statuses, i, c);
    CountersOf(b, statuses, i, c);
  }

  predicate NeverOverrun(b: Batch, statuses: map<RecipientId, Status>, n: nat, c: ConnectionId, limit: nat)
    requires BatchOk(b) && n <= |b.recipients|
  {
    n > 0 ==> NeverOverrun(b, statuses, n - 1, c, limit) && !Overruns(b, statuses, n - 1, c, limit)
  }

  lemma {:induction false} NeverOverrunIff(
      b: Batch, statuses: map<RecipientId, Status>, n: nat, c: ConnectionId, limit: nat)
    requires BatchOk(b) && n <= |b.recipients|
    ensures NeverOverrun(b, statuses, n, c, limit)
      <==> forall i :: 0 <= i < n ==> !Overruns(b, statuses, i, c, limit)
  {
    if n > 0 {
      NeverOverrunIff(b, statuses, n - 1, c, limit);
    }
  }

  lemma {:induction false} DeliveredWithinLimitIff(
      b: Batch, statuses: map<RecipientId, Status>, n: nat, c: ConnectionId, limit: nat)
    requires BatchOk(b) && n <= |b.recipients|
    ensures Delivered(b, statuses, n, c) <= limit <==> NeverOverrun(b, statuses, n, c, limit)
  {
    if n > 0 {
      DeliveredWithinLimitIff(b, statuses, n - 1, c, limit);
      NextOverrun(b, statuses, n - 1, c, limit);
    }
  }

  /** The messages of a connection stay within a limit exactly as long as no visit overruns it. */
  lemma MessagesWithinLimitIff(b: Batch, statuses: map<RecipientId, Status>, n: nat, c: ConnectionId, limit: nat)
    requires BatchOk(b) && n <= |b.recipients|
    ensures Delivered(b, statuses, n, c) <= limit
      <==> forall i :: 0 <= i < n ==> !Overruns(b, statuses, i, c, limit)
  {
    DeliveredWithinLimitIff(b, statuses, n, c, limit);
    NeverOverrunIff(b, statuses, n, c, limit);
  }

  predicate Records(v: Visit) {
    Departs(v) ==> IsCounted(v)
  }

  /** Below its own limit a connection is overrun only when messages were left uncounted. */
  lemma OverrunNeedsUncounted(b: Batch, statuses: map<RecipientId, Status>, i: nat, c: ConnectionId, limit: nat)
    requires BatchOk(b) && i < |b.recipients| && Limits(b.visits[i], c, limit) && Overruns(b, statuses, i, c, limit)
    ensures Counted(b, statuses, i, c) < limit && Uncounted(b, statuses, i, c) > 0
  {
    CountersOf(b, statuses, i, c);
  }

  lemma ServeRecords(
      s: State, r: RecipientId, v: Visit, ids: seq<ConnectionId>, owner: string, retry: bool, c: ConnectionId)
    requires Records(v)
    ensures Count(Serve(s, r, v, ids, owner, retry).state.past.uncounted, c) == Count(s.past.uncounted, c)
  {
    ServeNumbers(s, r, v, ids, owner, retry, c);
  }

  lemma {:induction false} AllRecorded(b: Batch, statuses: map<RecipientId, Status>, n: nat, c: ConnectionId)
    requires BatchOk(b) && n <= |b.recipients|
    requires forall i :: 0 <= i < n ==> Records(b.visits[i])
    ensures Uncounted(b, statuses, n, c) == 0
  {
    if n > 0 {
      AllRecorded(b, statuses, n - 1, c);
      var before, v := Run(b, Start(statuses), n - 1), b.visits[n - 1];
      if before.Continue? {
        ServeRecords(before.state, b.recipients[n - 1], v, b.ids, b.owner, b.retry, c);
      }
    }
  }

  /** So the limit holds for the messages themselves as long as every message that left was
      acknowledged and could be recorded. */
  lemma RecordedSendsStayWithinLimits(
      b: Batch, statuses: map<RecipientId, Status>, n: nat, c: ConnectionId, limit: nat)
    requires BatchOk(b) && n <= |b.recipients| && LimitedTo(b, c, limit)
    requires forall i :: 0 <= i < n ==> Records(b.visits[i])
    ensures Uncounted(b, statuses, n, c) == 0 && Delivered(b, statuses, n, c) <= limit
  {
    AllRecorded(b, statuses, n, c);
    forall i | 0 <= i < n
      ensures !Overruns(b, statuses, i, c, limit)
    {
      AllRecorded(b, statuses, i, c);
      if Overruns(b, statuses, i, c, limit) {
        assert Limits(b.visits[i], c, limit);
        OverrunNeedsUncounted(b, statuses, i, c, limit);
      }
    }
    MessagesWithinLimitIff(b, statuses, n, c, limit);
  }

  // ---- What the service can know about its limits ----

  /** To the service a failed call looks the same whether or not the message left. */
  ghost predicate Alike(v: Visit, w: Visit) {
    || v == w
    || (&& Tries(v) && v.result in {NetworkFails, LostReply}
        && (w == v.(result := NetworkFails) || w == v.(result := LostReply)))
  }

  ghost predicate LookAlikes(b: Batch, other: Batch) {
    && BatchOk(b) && BatchOk(other) && other == b.(visits := other.visits)
    && forall i :: 0 <= i < |b.visits| ==> Alike(b.visits[i], other.visits[i])
  }

  /** The counted sends of a connection and those the loop cannot be sure of. */
  function Reckoned(b: Batch, statuses: map<RecipientId, Status>, n: nat, c: ConnectionId): nat
    requires BatchOk(b) && n <= |b.recipients|
  {
    Counted(b, statuses, n, c) + Doubts(b, statuses, n, c)
  }

  /** An attempt goes to the network although the sends to reckon with make up the limit. */
  predicate Ventures(b: Batch, statuses: map<RecipientId, Status>, i: nat, c: ConnectionId, limit: nat)
    requires BatchOk(b) && i < |b.recipients|
  {
    Reaches(b, statuses, i, c) && Reckoned(b, statuses, i, c) >= limit
  }

  lemma FailedCall(t: Tally, p: Past, r: RecipientId, c: ConnectionId, v: Visit)
    requires Tries(v) && v.result in {NetworkFails, LostReply}
    ensures Tried(t, r, c, v) == Fail(t, r) && Kept(t, r, c, v) == t
    ensures Happened(p, r, c, v).doubts == Bump(p.doubts, c)
  {
  }

  lemma SameDoubts(p: Past, q: Past, r: RecipientId, c: ConnectionId, v: Visit)
    requires Tries(v) && p.doubts == q.doubts
    ensures Happened(p, r, c, v).doubts == Happened(q, r, c, v).doubts
  {
  }

  lemma AlikeTriedAlike(t: Tally, p: Past, q: Past, r: RecipientId, c: ConnectionId, v: Visit, w: Visit)
    requires Alike(v, w) && Tries(v) && p.doubts == q.doubts
    ensures Tried(t, r, c, v) == Tried(t, r, c, w) && Kept(t, r, c, v) == Kept(t, r, c, w)
    ensures Happened(p, r, c, v).doubts == Happened(q, r, c, w).doubts
  {
    if v == w {
      SameDoubts(p, q, r, c, v);
    } else {
      FailedCall(t, p, r, c, v);
      FailedCall(t, q, r, c, w);
    }
  }

  predicate SameToLoop(x: Outcome, y: Outcome) {
    x.Continue? == y.Continue? && x.state.tally == y.state.tally && x.state.past.doubts == y.state.past.doubts
  }

  lemma AlikeTryAlike(
      t: Tally, p: Past, q: Past, r: RecipientId, v: Visit, w: Visit,
      ids: seq<ConnectionId>, owner: string, retry: bool)
    requires Alike(v, w) && Tries(v) && p.doubts == q.doubts
    ensures SameToLoop(Try(State(t, p), r, v, ids, owner, retry), Try(State(t, q), r, w, ids, owner, retry))
  {
    var via := Via(t, v, ids, owner);
    assert via == Via(t, w, ids, owner);
    if via.Some? {
      AlikeTriedAlike(t, p, q, r, via.value, v, w);
    }
  }

  lemma AlikeServedAlike(
      t: Tally, p: Past, q: Past, r: RecipientId, v: Visit, w: Visit,
      ids: seq<ConnectionId>, owner: string, retry: bool)
    requires Alike(v, w) && p.doubts == q.doubts
    ensures SameToLoop(Serve(State(t, p), r, v, ids, owner, retry), Serve(State(t, q), r, w, ids, owner, retry))
  {
    if Tries(v) {
      AlikeTryAlike(t, p, q, r, v, w, ids, owner, retry);
    }
  }

  lemma {:induction false} LookAlikesAgree(b: Batch, other: Batch, statuses: map<RecipientId, Status>, n: nat)
    requires LookAlikes(b, other) && n <= |b.recipients|
    ensures SameToLoop(Run(b, Start(statuses), n), Run(other, Start(statuses), n))
  {
    if n > 0 {
      LookAlikesAgree(b, other, statuses, n - 1);
      var x, y := Run(b, Start(statuses), n - 1), Run(other, Start(statuses), n - 1);
      assert Alike(b.visits[n - 1], other.visits[n - 1]);
      if x.Continue? {
        AlikeServedAlike(x.state.tally, x.state.past, y.state.past, b.recipients[n - 1],
                         b.visits[n - 1], other.visits[n - 1], b.ids, b.owner, b.retry);
      }
    }
  }

  predicate Loud(b: Batch, n: nat)
    requires n <= |b.visits|
  {
    forall i :: 0 <= i < n && Tries(b.visits[i]) ==> b.visits[i].result != NetworkFails
  }

  lemma ServeKeepsDoubts(
      s: State, r: RecipientId, v: Visit, ids: seq<ConnectionId>, owner: string, retry: bool, c: ConnectionId)
    requires Count(s.past.uncounted, c) <= Count(s.past.doubts, c)
    ensures var p := Serve(s, r, v, ids, owner, retry).state.past;
      && Count(p.uncounted, c) <= Count(p.doubts, c)
      && (Count(s.past.uncounted, c) == Count(s.past.doubts, c) && (Tries(v) ==> v.result != NetworkFails)
          ==> Count(p.uncounted, c) == Count(p.doubts, c))
  {
    ServeNumbers(s, r, v, ids, owner, retry, c);
  }

  /** At most the doubtful calls delivered uncounted messages, and all of them did when every
      failed call had delivered its message. */
  lemma {:induction false} DoubtsCoverUncounted(
      b: Batch, statuses: map<RecipientId, Status>, n: nat, c: ConnectionId)
    requires BatchOk(b) && n <= |b.recipients|
    ensures Uncounted(b, statuses, n, c) <= Doubts(b, statuses, n, c)
    ensures Loud(b, n) ==> Uncounted(b, statuses, n, c) == Doubts(b, statuses, n, c)
  {
    if n > 0 {
      DoubtsCoverUncounted(b, statuses, n - 1, c);
      var before, v := Run(b, Start(statuses), n - 1), b.visits[n - 1];
      if before.Continue? {
        ServeKeepsDoubts(before.state, b.recipients[n - 1], v, b.ids, b.owner, b.retry, c);
      }
    }
  }

  lemma NextVenture(b: Batch, statuses: map<RecipientId, Status>, i: nat, c: ConnectionId, limit: nat)
    requires BatchOk(b) && i < |b.recipients|
    ensures var before, now := Reckoned(b, statuses, i, c), Reckoned(b, statuses, i + 1, c);
      before <= now && (before <= limit ==> (now <= limit <==> !Ventures(b, statuses, i, c, limit)))
  {
    NextNumbers(b, statuses, i, c);
  }

  predicate Careful(b: Batch, statuses: map<RecipientId, Status>, n: nat, c: ConnectionId, limit: nat)
    requires BatchOk(b) && n <= |b.recipients|
  {
    n > 0 ==> Careful(b, statuses, n - 1, c, limit) && !Ventures(b, statuses, n - 1, c, limit)
  }

  lemma {:induction false} CarefulIff(
      b: Batch, statuses: map<RecipientId, Status>, n: nat, c: ConnectionId, limit: nat)
    requires BatchOk(b) && n <= |b.recipients|
    ensures Careful(b, statuses, n, c, limit) <==> forall i :: 0 <= i < n ==> !Ventures(b, statuses, i, c, limit)
  {
    if n > 0 {
      CarefulIff(b, statuses, n - 1, c, limit);
    }
  }

  lemma {:induction false} ReckonedWithinLimitIff(
      b: Batch, statuses: map<RecipientId, Status>, n: nat, c: ConnectionId, limit: nat)
    requires BatchOk(b) && n <= |b.recipients|
    ensures Reckoned(b, statuses, n, c) <= limit <==> Careful(b, statuses, n, c, limit)
  {
    if n > 0 {
      ReckonedWithinLimitIff(b, statuses, n - 1, c, limit);
      NextVenture(b, statuses, n - 1, c, limit);
    }
  }

  function Lost(v: Visit): (w: Visit)
    ensures Alike(v, w) && (Tries(w) ==> w.result != NetworkFails)
  {
    if Tries(v) && v.result == NetworkFails then v.(result := LostReply) else v
  }

  function Loudest(b: Batch): Batch {
    b.(visits := seq(|b.visits|, i requires 0 <= i < |b.visits| => Lost(b.visits[i])))
  }

  lemma DeliveredIsReckoned(
      b: Batch, other: Batch, statuses: map<RecipientId, Status>, n: nat, c: ConnectionId)
    requires LookAlikes(b, other) && n <= |b.recipients|
    ensures Delivered(other, statuses, n, c) <= Reckoned(b, statuses, n, c)
    ensures other == Loudest(b) ==> Delivered(other, statuses, n, c) == Reckoned(b, statuses, n, c)
  {
    LookAlikesAgree(b, other, statuses, n);
    DoubtsCoverUncounted(other, statuses, n, c);
    CountersOf(other, statuses, n, c);
  }

  /** Whatever became of the messages behind failed calls, a connection's messages stay within a
      limit, exactly when nothing goes to the network once the counted sends and the doubtful
      ones make up the limit. */
  lemma LimitIsSureIff(b: Batch, statuses: map<RecipientId, Status>, n: nat, c: ConnectionId, limit: nat)
    requires BatchOk(b) && n <= |b.recipients|
    ensures (forall other :: LookAlikes(b, other) ==> Delivered(other, statuses, n, c) <= limit)
      <==> forall i :: 0 <= i < n ==> !Ventures(b, statuses, i, c, limit)
  {
    ReckonedWithinLimitIff(b, statuses, n, c, limit);
    CarefulIff(b, statuses, n, c, limit);
    forall other | LookAlikes(b, other)
      ensures Delivered(other, statuses, n, c) <= Reckoned(b, statuses, n, c)
    {
      DeliveredIsReckoned(b, other, statuses, n, c);
    }
    DeliveredIsReckoned(b, Loudest(b), statuses, n, c);
  }

  const SLIP := Attempt(map["a" := Connection("o", false, 1, 0)], RecordFails, true)

  lemma OneSlip(s: State, r: RecipientId)
    requires Count(s.tally.hour, "a") == Count(s.tally.day, "a") == 0 && StatusOf(s.tally, r) == Pending
    ensures var next := Serve(s, r, SLIP, ["a"], "o", false);
      && next.Continue?
      && Count(next.state.past.delivered, "a") == Count(s.past.delivered, "a") + 1
      && next.state.tally.hour == s.tally.hour && next.state.tally.day == s.tally.day
      && next.state.tally.statuses == s.tally.statuses[r := Failed]
  {
    PickIsUnique(["a"], SLIP.table, "o", s.tally.hour, s.tally.day, 0);
  }

  /** The limit itself is not kept when recording fails: two messages leave through a connection
      that may send one. */
  lemma UncountedSendsPassTheLimit()
    ensures exists b :: BatchOk(b) && LimitedTo(b, "a", 1) && |b.recipients| == 2
                        && Count(Run(b, Start(map[]), 2).state.past.delivered, "a") == 2
  {
    var b, s := Batch([1, 2], [SLIP, SLIP], ["a"], "o", false), Start(map[]);
    OneSlip(s, 1);
    var one := Serve(s, 1, SLIP, ["a"], "o", false);
    OneSlip(one.state, 2);
    assert Run(b, s, 0) == Continue(s);
    assert Run(b, s, 1) == one;
    assert Run(b, s, 2) == Serve(one.state, 2, SLIP, ["a"], "o", false);
    assert LimitedTo(b, "a", 1);
  }

  // ---- Failing over ----

  lemma ServeOnlyCountsUp(
      s: State, r: RecipientId, v: Visit, ids: seq<ConnectionId>, owner: string, retry: bool, c: ConnectionId)
    ensures var t := Serve(s, r, v, ids, owner, retry).state.tally;
      Count(s.tally.hour, c) <= Count(t.hour, c) && Count(s.tally.day, c) <= Count(t.day, c)
  {
    ServeNumbers(s, r, v, ids, owner, retry, c);
  }

  lemma {:induction false} RunOnlyCountsUp(b: Batch, s: State, m: nat, n: nat, c: ConnectionId)
    requires BatchOk(b) && m <= n <= |b.recipients|
    ensures var t, u := Run(b, s, m).state.tally, Run(b, s, n).state.tally;
      Count(t.hour, c) <= Count(u.hour, c) && Count(t.day, c) <= Count(u.day, c)
    decreases n
  {
    if m < n {
      RunOnlyCountsUp(b, s, m, n - 1, c);
      var before := Run(b, s, n - 1);
      if before.Continue? {
        ServeOnlyCountsUp(before.state, b.recipients[n - 1], b.visits[n - 1], b.ids, b.owner, b.retry, c);
      }
    }
  }

  function Choice(b: Batch, s: State, n: nat, ids: seq<ConnectionId>, table: Table): nat
    requires BatchOk(b) && n <= |b.recipients|
  {
    var t := Run(b, s, n).state.tally;
    Pick(ids, table, b.owner, t.hour, t.day)
  }

  lemma {:induction false} PickMovesDown(ids: seq<ConnectionId>, table: Table, owner: string, t: Tally, u: Tally)
    requires forall c :: Count(t.hour, c) <= Count(u.hour, c) && Count(t.day, c) <= Count(u.day, c)
    ensures Pick(ids, table, owner, t.hour, t.day) <= Pick(ids, table, owner, u.hour, u.day)
  {
    if ids != [] {
      PickMovesDown(ids[1..], table, owner, t, u);
      assert Usable(table, owner, u.hour, u.day, ids[0]) ==> Usable(table, owner, t.hour, t.day, ids[0]);
    }
  }

  /** While the connections asked for and their rows stay the same the choice only moves down the
      list. */
  lemma FailoverNeverGoesBack(b: Batch, s: State, m: nat, n: nat, ids: seq<ConnectionId>, table: Table)
    requires BatchOk(b) && m <= n <= |b.recipients|
    ensures Choice(b, s, m, ids, table) <= Choice(b, s, n, ids, table)
  {
    var t, u := Run(b, s, m).state.tally, Run(b, s, n).state.tally;
    forall c
      ensures Count(t.hour, c) <= Count(u.hour, c) && Count(t.day, c) <= Count(u.day, c)
    {
      RunOnlyCountsUp(b, s, m, n, c);
    }
    PickMovesDown(ids, table, b.owner, t, u);
  }

  // ---- The loop ----

  function Ended(t: Tally, past: Past, ending: Option<Ending>): Outcome {
    if ending.None? then Continue(State(t, past)) else Halt(State(t, past), ending.value)
  }

  /** The guarded part of an attempt, up to its exception if it raises one. */
  method Send(t: Tally, r: RecipientId, c: ConnectionId, v: Visit) returns (u: Tally, raised: bool)
    requires v.Attempt?
    ensures u == Reached(t, r, c, v) && raised == (v.result != AllFine)
  {
    u, raised := t, true;
    if v.result in {PrepareFails, NetworkFails, LostReply} {
      return;
    }
    u := u.(statuses := u.statuses[r := Sent], batchSent := u.batchSent + 1);
    if v.result == RecordFails {
      return;
    }
    u := u.(hour := u.hour[c := Count(u.hour, c) + 1]);
    u := u.(day := u.day[c := Count(u.day, c) + 1]);
    u := u.(sent := u.sent + 1);
    raised := v.result == LogFails;
  }

  method TrySending(t: Tally, ghost past: Past, r: RecipientId, v: Visit, b: Batch)
    returns (u: Tally, ghost now: Past, ending: Option<Ending>)
    requires v.Attempt? && !Served(t, r)
    ensures Ended(u, now, ending) == Try(State(t, past), r, v, b.ids, b.owner, b.retry)
    ensures b.retry && v.result != AllFine ==> ending == Some(Raised) && u.statuses == t.statuses
    ensures u.sent <= t.sent + 1 && (v.result == AllFine && u.sent > t.sent ==> StatusOf(u, r) == Sent)
  {
    u, now, ending := t, past, None;
    var raised := true;
    var k := PickAvailableConnection(b.ids, v.table, b.owner, t.hour, t.day);
    assert Via(t, v, b.ids, b.owner) == if k < |b.ids| then Some(b.ids[k]) else None;
    if k < |b.ids| {
      u, raised := Send(t, r, b.ids[k], v);
      now := Happened(past, r, b.ids[k], v);
    }
    if raised {
      ghost var reached := u;
      u := u.(errors := u.errors + 1, statuses := u.statuses[r := Failed], batchErrors := u.batchErrors + 1);
      assert u == Fail(reached, r);
      if b.retry || !v.recorded {
        u := u.(statuses := t.statuses, batchSent := t.batchSent, batchErrors := t.batchErrors);
        ending := Some(Raised);
      }
    }
  }

  /** The chain's first letter on its way: sessions of its own save the recipient's row, and a
      send is counted only when everything worked. */
  method DeliverChainNode(t: Tally, r: RecipientId, c: ConnectionId, v: Visit) returns (u: Tally, raised: bool)
    requires v.ChainAttempt?
    ensures raised == (v.result != AllFine)
    ensures raised ==> u == Written(t, r, v)
    ensures !raised ==> u.(sent := u.sent + 1, batchSent := u.batchSent + 1) == Tick(Mark(t, r, InChain), c)
  {
    u, raised := t, true;
    if v.result == PrepareFails && v.marked {
      u := u.(statuses := u.statuses[r := Failed]);
    }
    if v.result in {PrepareFails, NetworkFails, LostReply, RecordFails} {
      return;
    }
    u := u.(statuses := u.statuses[r := InChain]);
    if v.result == LogFails {
      return;
    }
    u := u.(hour := u.hour[c := Count(u.hour, c) + 1]);
    u := u.(day := u.day[c := Count(u.day, c) + 1]);
    raised := false;
  }

  /** The campaign's connections are read again for every letter of a chain. */
  method SendChainNode(t: Tally, ghost past: Past, r: RecipientId, v: Visit, owner: string)
    returns (u: Tally, ghost now: Past, raised: bool)
    requires v.ChainAttempt?
    ensures var via := Via(t, v, [], owner);
      && (via.None? ==> raised && u == t && now == past)
      && (via.Some? ==> raised == (v.result != AllFine) && now == Happened(past, r, via.value, v))
      && (via.Some? && raised ==> u == Written(t, r, v))
      && (!raised ==> u.(sent := u.sent + 1, batchSent := u.batchSent + 1)
                      == Tick(Mark(t, r, InChain), via.value))
  {
    u, now, raised := t, past, true;
    var k := PickAvailableConnection(v.ids, v.table, owner, t.hour, t.day);
    if k < |v.ids| {
      now := Happened(now, r, v.ids[k], v);
      u, raised := DeliverChainNode(t, r, v.ids[k], v);
    }
  }

  method TryChain(t: Tally, ghost past: Past, r: RecipientId, v: Visit, b: Batch)
    returns (u: Tally, ghost now: Past, ending: Option<Ending>)
    requires v.ChainAttempt? && !Served(t, r)
    ensures Ended(u, now, ending) == Try(State(t, past), r, v, b.ids, b.owner, b.retry)
    ensures b.retry && v.result != AllFine ==> ending == Some(Raised)
    ensures ending.Some? && v.result == LogFails && StatusOf(u, r) != StatusOf(t, r) ==> StatusOf(u, r) == InChain
  {
    var raised;
    u, now, raised := SendChainNode(t, past, r, v, b.owner);
    assert Via(t, v, b.ids, b.owner) == Via(t, v, [], b.owner);
    ending := None;
    if !raised {
      u := u.(batchSent := u.batchSent + 1, sent := u.sent + 1);
    } else {
      var saved := u;
      u := u.(errors := u.errors + 1, statuses := u.statuses[r := Failed], batchErrors := u.batchErrors + 1);
      if b.retry {
        u := u.(statuses := saved.statuses, batchErrors := saved.batchErrors);
        ending := Some(Raised);
      }
    }
  }

  lemma EndsByFirstStop(b: Batch, statuses: map<RecipientId, Status>)
    requires BatchOk(b)
    ensures var n := |b.recipients|;
      && (Run(b, Start(statuses), n).Continue? <==> forall i :: 0 <= i < n ==> StopAt(b, statuses, i).None?)
      && (forall i ::
            0 <= i < n && StopAt(b, statuses, i).Some? && (forall j :: 0 <= j < i ==> StopAt(b, statuses, j).None?)
            ==> Run(b, Start(statuses), n) == Halt(After(b, statuses, i + 1), StopAt(b, statuses, i).value))
  {
    RunsOnIff(b, statuses, |b.recipients|);
    forall i |
        0 <= i < |b.recipients| && StopAt(b, statuses, i).Some?
        && (forall j :: 0 <= j < i ==> StopAt(b, statuses, j).None?)
      ensures Run(b, Start(statuses), |b.recipients|)
        == Halt(After(b, statuses, i + 1), StopAt(b, statuses, i).value)
    {
      FirstStopDecides(b, statuses, i, |b.recipients|);
    }
  }

  method RunSenderBatch(b: Batch, statuses: map<RecipientId, Status>)
    returns (t: Tally, ghost past: Past, ending: Option<Ending>)
    requires BatchOk(b)
    ensures Ended(t, past, ending)
      == if b.ids == [] then Halt(Start(statuses), Raised) else Run(b, Start(statuses), |b.recipients|)
    ensures t.hour == t.day && forall all :: Covers(all, b) ==> Sum(all, t.hour) == t.sent
    ensures ending.None? <==> b.ids != [] && forall i :: 0 <= i < |b.recipients| ==> StopAt(b, statuses, i).None?
    ensures forall i ::
      0 <= i < |b.recipients| && b.ids != [] && StopAt(b, statuses, i).Some?
      && (forall j :: 0 <= j < i ==> StopAt(b, statuses, j).None?)
      ==> ending == StopAt(b, statuses, i) && State(t, past) == After(b, statuses, i + 1)
  {
    EndsByFirstStop(b, statuses);
    forall all | Covers(all, b)
      ensures CountsOk(all, Run(b, Start(statuses), |b.recipients|).state) && Sum(all, map[]) == 0
    {
      CountersAddUp(b, statuses, |b.recipients|, all);
      SumOfNothing(all);
    }
    HourIsDay(b, statuses, |b.recipients|);
    t, past, ending := Start(statuses).tally, Start(statuses).past, None;
    if b.ids == [] {
      ending := Some(Raised);
      return;
    }
    for i := 0 to |b.recipients|
      invariant ending == None && Run(b, Start(statuses), i) == Continue(State(t, past))
    {
      var r, v := b.recipients[i], b.visits[i];
      if v.Missing? {
        continue;
      } else if v.CampaignPaused? {
        ending := Some(PausedEarly);
      } else if v.CampaignCancelled? {
        ending := Some(CancelledEarly);
      } else if Served(t, r) {
        continue;
      } else if v.ChainSkips? {
        t := t.(statuses := t.statuses[r := Skipped]);
      } else if v.ChainAttempt? {
        t, past, ending := TryChain(t, past, r, v, b);
      } else if v.NoAddress? {
        t := t.(errors := t.errors + 1);
        if v.recorded {
          t := t.(statuses := t.statuses[r := Failed], batchErrors := t.batchErrors + 1);
        } else {
          ending := Some(Raised);
        }
      } else if v.Refused? {
        continue;
      } else if v.RenderFails? {
        ending := Some(Raised);
      } else {
        t, past, ending := TrySending(t, past, r, v, b);
      }
      if ending.Some? {
        HaltStays(b, Start(statuses), i + 1, |b.recipients|);
        return;
      }
    }
  }
}
