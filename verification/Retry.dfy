/** The retry engine: one CMDB operation with bounded retry, re-select and reporting. */
module Retry {
  import opened Basics
  import opened Cmdb

  const RETRY_BASE := 1.0
  const RETRY_JITTER := 0.5

  /** What is asked after a lost reply, before an insert is sent again. */
  datatype Selector =
    | NoSelector
    | Once(query: Op)                                             // a bare select
    | AttachedIp(addr: string, uuid: string)                      // itself a retried call
    | AttachEndpoint(addr: string, uuid: string, server: Id, name: string)

  /** How a failure is reported: `mark` turns the final state to error, `listed` puts it in the details. */
  datatype Report = Report(mark: bool, listed: bool)

  datatype Opts = Opts(field: string, raises: bool, report: Option<Report>)

  // -- one request -------------------------------------------------------------------

  /** What every step keeps of the world, and what it may only extend. */
  ghost predicate Extends(w: World, w': World) {
    && w'.session == w.session && w'.budget == w.budget && w'.scope == w.scope
    && w.log <= w'.log && w.trail <= w'.trail
    && w.minted <= w'.minted
    && w'.crowd == w.crowd
    && w.db.catalog == w'.db.catalog
  }

  function Rest<T>(s: seq<T>): (r: seq<T>)
    ensures s == [] ==> r == []
  { if s == [] then [] else s[1..] }

  function Fate(w: World): Fault { if w.tape == [] then Replies else w.tape[0] }

  predicate Lands(f: Fault) { f.Replies? || f.ReplyLost? }

  function AnswerTo(db: Db, op: Op, id: Id, fault: Fault): Answer {
    match fault
    case Rejected(why) => Threw(Perm(why))
    case Replies => if Accepts(db, op) then Got(Reads(db, op, id)) else Threw(Perm(DataError))
    case _ => Threw(Transport)
  }

  /** One request over the wire. */
  function Exchange(w: World, op: Op): (t: Turn)
    ensures Extends(w, t.w)
  {
    var fault := Fate(w);
    var met := Met(w);
    var id := Id(w.session, w.minted);
    var answer := AnswerTo(met, op, id, fault);
    Turn(
      w.(db := if Lands(fault) then Commit(met, op, id) else met,
         tape := Rest(w.tape),
         minted := if Lands(fault) && op.Insert() then w.minted + 1 else w.minted,
         log := w.log + [Sent(op, fault, answer)],
         trail := w.trail + [Step(met, op, id, fault)]),
      answer)
  }

  function Clamp(x: real): (r: real)
    ensures 0.0 <= r <= RETRY_JITTER
  {
    if x < 0.0 then 0.0 else if x > RETRY_JITTER then RETRY_JITTER else x
  }

  /** Sleep before the next attempt: linear backoff plus jitter. */
  function Nap(w: World, attempt: nat): (r: World)
    ensures Extends(w, r)
  {
    var jitter := if w.dice == [] then 0.0 else Clamp(w.dice[0]);
    w.(dice := Rest(w.dice), log := w.log + [Slept(RETRY_BASE * attempt as real + jitter)])
  }

  // -- the loop ------------------------------------------------------------------------

  function Tries(w: World): (n: nat)
    ensures n >= 1
  {
    if w.budget < 1 then 1 else w.budget
  }

  function Message(field: string): string { "Error while saving \"" + field + "\"" }

  /** Record a permanent failure, then raise it or swallow it. */
  function Fail(w: World, o: Opts): (t: Turn)
    ensures Extends(w, t.w)
  {
    var w' := if o.report.None? then w
              else w.(errors := w.errors + [Entry(o.field, Message(o.field), o.report.value.mark, o.report.value.listed)]);
    Turn(w', if o.raises then Threw(CmdbAbort) else Got(Nothing))
  }

  const PROBE := Opts("ip.select_one", false, None)

  function Weight(sel: Selector): nat { if sel.NoSelector? then 0 else 1 }

  /** Look for the row a lost insert may have left behind. */
  function Reselect(w: World, sel: Selector): (t: Turn)
    requires !sel.NoSelector?
    ensures Extends(w, t.w)
    decreases Weight(sel), 0, 0, 0
  {
    match sel
    case Once(query) => Exchange(w, query)
    case AttachedIp(addr, uuid) => Attempts(w, SelectAttachedIp(addr, uuid), NoSelector, PROBE, 1)
    case AttachEndpoint(addr, uuid, server, name) =>
      var t := Attempts(w, SelectAttachedIp(addr, uuid), NoSelector, PROBE, 1);
      match t.answer
      case Threw(_) => t
      case Got(IpRef(_, onEndpoint, onName)) => Turn(t.w, Got(EndpointRef(onEndpoint, onName, true)))
      case Got(_) => Exchange(t.w, SelectEndpointByName(server, name))
  }

  /** Send the request of attempt number `attempt`. */
  function Issue(w: World, op: Op, sel: Selector, o: Opts, attempt: nat): (t: Turn)
    requires 1 <= attempt <= Tries(w)
    ensures Extends(w, t.w)
    decreases Weight(sel), 1, Tries(w) - attempt, 0
  {
    var sent := Exchange(w, op);
    match sent.answer
    case Got(_) => sent
    case Threw(Perm(_)) => Fail(sent.w, o)
    case Threw(e) =>
      if attempt >= Tries(w) then sent
      else Attempts(Nap(sent.w, attempt), op, sel, o, attempt + 1)
  }

  /** The engine from attempt number `attempt` on: re-select before every re-insert. */
  function Attempts(w: World, op: Op, sel: Selector, o: Opts, attempt: nat): (t: Turn)
    requires 1 <= attempt <= Tries(w)
    ensures Extends(w, t.w)
    decreases Weight(sel), 1, Tries(w) - attempt, 1
  {
    if sel.NoSelector? || attempt == 1 then Issue(w, op, sel, o, attempt)
    else
      var found := Reselect(w, sel);
      match found.answer
      case Threw(e) =>
        if attempt >= Tries(w) then found
        else Attempts(Nap(found.w, attempt), op, sel, o, attempt + 1)
      case Got(row) => if row != Nothing then found else Issue(found.w, op, sel, o, attempt)
  }

  function Call(w: World, op: Op, sel: Selector, o: Opts): (t: Turn)
    ensures Extends(w, t.w)
  {
    Attempts(w, op, sel, o, 1)
  }
}
