/** The result bundle of one asynchronous operation (temporal_result_t), the answers the
    core may give, and what each PHP method does with the bundle it collected. */
module Results {
  import opened CStrings

  datatype Option<+T> = None | Some(value: T)

  /** The operations that park a coroutine. Completing an activity task and completing a
      workflow activation share one path, and so do the two polls. */
  datatype Kind = Connect | Rpc | Poll | Complete | Finalize {
    /** The core reports nothing but success or a message: temporal_worker_op_done delivers it. */
    predicate Void() {
      Complete? || Finalize?
    }
  }

  /** What the core passes to the callback of one launch, before the shim touches it. */
  datatype Answer = Answer(connection: bool, success: Option<Bytes>, fail: Option<Bytes>,
                           details: Option<Bytes>, status: nat)

  /** The case split temporal_core.h promises for each kind. */
  predicate Contract(kind: Kind, a: Answer) {
    match kind
    case Connect => a.success.None? && a.details.None? && (a.connection <==> a.fail.None?)
    case Rpc => !a.connection
    case Poll => !a.connection && a.details.None? && (a.success.None? || a.fail.None?)
    case _ => !a.connection && a.success.None? && a.details.None?
  }

  /** temporal_result_t. `data` points into the core buffer `owner`; `connection` is a core box. */
  datatype Bundle = Bundle(connection: bool, data: Option<Bytes>, owner: bool, status: nat,
                           fail: Option<Bytes>, details: Option<Bytes>)

  /** The bundle after calloc or memset. */
  const ZERO := Bundle(false, None, false, 0, None, None)

  /** The heap copy of a core message: `room` says whether malloc succeeded. */
  function Copied(src: Option<Bytes>, room: bool): Option<Bytes> {
    if room then src else None
  }

  /** The arguments the shim's core callbacks hand to `done`. */
  function Delivered(kind: Kind, a: Answer, failRoom: bool, detailsRoom: bool): Bundle {
    match kind
    case Connect => Bundle(a.connection, None, false, 0, if a.connection then None else Copied(a.fail, failRoom), None)
    case Rpc =>
      Bundle(false, a.success, a.success.Some?, a.status, Copied(a.fail, failRoom), Copied(a.details, detailsRoom))
    case Poll => Bundle(false, a.success, a.success.Some?, 0, Copied(a.fail, failRoom), None)
    case _ => Bundle(false, None, false, 0, Copied(a.fail, failRoom), None)
  }

  /** What the shim passes to `done` itself when it could not set the operation up. */
  function OutOfMemory(message: Option<Bytes>): Bundle {
    ZERO.(fail := message)
  }

  // ---------------------------------------------------------------------------
  // Custody of the resources a bundle names
  // ---------------------------------------------------------------------------

  /** The life of one resource. A connection that a Connection object takes over is Adopted. */
  datatype Cell = Absent | Live | Freed | Adopted

  /** The four resources a bundle can carry. */
  datatype Payload = Payload(connection: Cell, owner: Cell, fail: Cell, details: Cell)

  const NO_PAYLOAD := Payload(Absent, Absent, Absent, Absent)

  function As(present: bool, c: Cell): Cell {
    if present then c else Absent
  }

  /** Every resource of `b` is in state `c`, and there are no others. */
  function PayloadOf(b: Bundle, c: Cell): Payload {
    Payload(As(b.connection, c), As(b.owner, c), As(b.fail.Some?, c), As(b.details.Some?, c))
  }

  /** Nothing is still allocated under the call's name. */
  predicate NothingLive(p: Payload) {
    !p.connection.Live? && !p.owner.Live? && !p.fail.Live? && !p.details.Live?
  }

  /** Each resource of `b` has been freed, except a connection that was adopted; there were no others. */
  predicate Settled(p: Payload, b: Bundle) {
    && (p.connection == As(b.connection, Freed) || (b.connection && p.connection.Adopted?))
    && p.owner == As(b.owner, Freed)
    && p.fail == As(b.fail.Some?, Freed)
    && p.details == As(b.details.Some?, Freed)
  }

  /** temporal_result_drop on the resources of `b`. */
  function Drop(p: Payload, b: Bundle): Payload {
    Payload(if b.connection then Freed else p.connection, if b.owner then Freed else p.owner,
            if b.fail.Some? then Freed else p.fail, if b.details.Some? then Freed else p.details)
  }

  /** The free calls of temporal_result_drop are legal: each one finds a live resource. */
  predicate CanDrop(p: Payload, b: Bundle) {
    && (b.connection ==> p.connection.Live?)
    && (b.owner ==> p.owner.Live?)
    && (b.fail.Some? ==> p.fail.Live?)
    && (b.details.Some? ==> p.details.Live?)
  }

  /** What the PHP caller sees. */
  datatype Php = Constructed | NoMemory | Text(b: Bytes) | Null | Void | ConnectionError(m: Option<Bytes>)
               | ServiceError(m: Option<Bytes>, status: nat, d: Option<Bytes>) | Unwound

  /** What an exception says of a message: it is printed with %s, so it ends at its first NUL. */
  function Told(message: Option<Bytes>): Option<Bytes> {
    if message.Some? then Some(CutNul(message.value)) else None
  }

  /** The value or exception each method produces from the bundle. */
  function Report(kind: Kind, b: Bundle, room: bool): Php {
    match kind
    case Connect => if !b.connection then ConnectionError(Told(b.fail)) else if room then Constructed else NoMemory
    case Rpc =>
      (match b.data
       case Some(d) => Text(d)
       case None =>
         if b.status != 0 then ServiceError(Told(b.fail), b.status, b.details) else ConnectionError(Told(b.fail)))
    case Poll =>
      if b.fail.Some? then ServiceError(Told(b.fail), 0, None)
      else (match b.data case Some(d) => Text(d) case None => Null)
    case _ => if b.fail.Some? then ServiceError(Told(b.fail), 0, None) else Void
  }

  /** The releases each method performs on the bundle it collected; `room` says whether the
      Connection constructor could allocate its handle. */
  function Consume(kind: Kind, p: Payload, b: Bundle, room: bool): Payload {
    match kind
    case Connect =>
      if b.connection then p.(connection := if room then Adopted else Freed)
      else Drop(p, ZERO.(fail := b.fail))
    case Rpc =>
      if b.data.Some? then Drop(p, ZERO.(owner := b.owner, fail := b.fail, details := b.details))
      else Drop(p, ZERO.(fail := b.fail, details := b.details))
    case Poll =>
      if b.fail.Some? then Drop(p, ZERO.(fail := b.fail))
      else if b.data.Some? then Drop(p, ZERO.(owner := b.owner))
      else p
    case _ => Drop(p, ZERO.(fail := b.fail))
  }

  /** Those releases are legal, and the bytes copied into a PHP string are still allocated. */
  predicate CanConsume(kind: Kind, p: Payload, b: Bundle) {
    match kind
    case Connect => if b.connection then p.connection.Live? else CanDrop(p, ZERO.(fail := b.fail))
    case Rpc =>
      if b.data.Some? then p.owner.Live? && CanDrop(p, ZERO.(owner := b.owner, fail := b.fail, details := b.details))
      else CanDrop(p, ZERO.(fail := b.fail, details := b.details))
    case Poll =>
      if b.fail.Some? then CanDrop(p, ZERO.(fail := b.fail))
      else b.data.Some? ==> p.owner.Live?
    case _ => CanDrop(p, ZERO.(fail := b.fail))
  }

  /** The bundle shapes a method takes apart completely: it never sets a field its method
      does not look at. */
  predicate Tidy(kind: Kind, b: Bundle) {
    match kind
    case Connect => !b.owner && b.details.None? && (b.connection ==> b.fail.None?)
    case Rpc => !b.connection && (b.owner ==> b.data.Some?)
    case Poll => !b.connection && b.details.None? && (b.owner ==> b.data.Some? && b.fail.None?)
    case _ => !b.connection && !b.owner && b.details.None?
  }

  /** `data` is borrowed from `owner`. */
  predicate Borrowed(b: Bundle) {
    b.data.Some? ==> b.owner
  }

  /** Buffer conservation at the last hop, for every bundle whatever: a method releases all it
      was given exactly when the bundle is Tidy. */
  lemma ConsumeConserves(kind: Kind, b: Bundle, room: bool)
    ensures Settled(Consume(kind, PayloadOf(b, Live), b, room), b) <==> Tidy(kind, b)
    ensures NothingLive(Consume(kind, PayloadOf(b, Live), b, room)) <==> Tidy(kind, b)
  {
  }

  /** ... and never releases or reads anything it was not given. */
  lemma ConsumeIsLegal(kind: Kind, b: Bundle)
    requires Borrowed(b)
    ensures CanConsume(kind, PayloadOf(b, Live), b)
  {
  }

  /** A core that keeps its contract only ever leads to Tidy bundles, with or without memory for
      the copies, and so does the shim's own failure. */
  lemma ContractGivesTidy(kind: Kind, a: Answer, failRoom: bool, detailsRoom: bool)
    requires Contract(kind, a)
    ensures Tidy(kind, Delivered(kind, a, failRoom, detailsRoom)) && Borrowed(Delivered(kind, a, failRoom, detailsRoom))
  {
  }

  /** Copying the messages and releasing the core's copies leaves exactly the bundle's resources. */
  lemma CopyCompletesPayload(kind: Kind, a: Answer, failRoom: bool, detailsRoom: bool)
    requires Contract(kind, a)
    ensures var b := Delivered(kind, a, failRoom, detailsRoom);
            PayloadOf(b, Live)
            == Payload(As(a.connection, Live), As(a.success.Some?, Live),
                       As(b.fail.Some?, Live), As(b.details.Some?, Live))
  {
  }

  /** temporal_core.h:51-52 promises the connect callback exactly one of `connection` and `fail`.
      With a core that keeps its own contract this holds exactly when the message could be copied. */
  lemma ConnectGivesExactlyOne(a: Answer, failRoom: bool, detailsRoom: bool)
    requires Contract(Connect, a)
    ensures var b := Delivered(Connect, a, failRoom, detailsRoom);
            (b.connection <==> b.fail.None?) <==> (a.connection || failRoom)
  {
  }

  /** ... so without memory for the message `done` gets neither. */
  lemma ConnectMayGiveNeither(message: Bytes)
    ensures var a := Answer(false, None, Some(message), None, 0);
            Contract(Connect, a) && Delivered(Connect, a, false, false) == ZERO
  {
  }

  /** The core said the operation failed. */
  predicate CoreFailed(kind: Kind, a: Answer) {
    match kind
    case Connect => !a.connection
    case Rpc => a.success.None?
    case _ => a.fail.Some?
  }

  predicate IsError(p: Php) {
    p.ConnectionError? || p.ServiceError? || p.NoMemory?
  }

  /** A failure the core reports reaches PHP as an exception exactly when the operation is one
      whose success carries a value of its own, or the message could be copied. For a poll or a
      completion a failed malloc in temporal_php_copy_str turns the failure into a shutdown or
      into success. */
  lemma FailureIsReported(kind: Kind, a: Answer, failRoom: bool, detailsRoom: bool, room: bool)
    requires Contract(kind, a) && CoreFailed(kind, a)
    ensures IsError(Report(kind, Delivered(kind, a, failRoom, detailsRoom), room))
            <==> (kind.Connect? || kind.Rpc? || failRoom)
  {
  }

  /** For instance: a failed poll that looks like a shutdown, a failed completion like a success. */
  lemma FailureCanBeLost(message: Bytes, room: bool)
    ensures var a := Answer(false, None, Some(message), None, 0);
            && Contract(Poll, a) && CoreFailed(Poll, a)
            && Report(Poll, Delivered(Poll, a, false, false), room) == Null
            && Contract(Complete, a) && CoreFailed(Complete, a)
            && Report(Complete, Delivered(Complete, a, false, false), room) == Void
  {
  }

  /** A success is reported as a failure in one case only: no memory for a new connection's handle. */
  lemma SuccessIsReported(kind: Kind, a: Answer, failRoom: bool, detailsRoom: bool, room: bool)
    requires Contract(kind, a) && !CoreFailed(kind, a)
    ensures IsError(Report(kind, Delivered(kind, a, failRoom, detailsRoom), room)) <==> kind.Connect? && !room
  {
  }

  /** `m` is what a C program prints of `s`. */
  predicate Printed(m: Bytes, s: Bytes) {
    m <= s && NUL !in m && (|m| < |s| ==> s[|m|] == NUL)
  }

  /** The exception speaks of the message `fail`, or of none. */
  predicate Tells(p: Php, fail: Option<Bytes>)
    requires p.ServiceError? || p.ConnectionError?
  {
    if fail.Some? then p.m.Some? && Printed(p.m.value, fail.value) else p.m.None?
  }

  /** What PHP has to be told of the core's answer `a`, without a look at the bundle: which of all
      outcomes it is, with which bytes. The rooms say which copies, and which handle, found memory. */
  predicate Conveys(kind: Kind, a: Answer, failRoom: bool, detailsRoom: bool, room: bool, p: Php) {
    && (p.Constructed? <==> kind.Connect? && a.connection && room)
    && (p.NoMemory? <==> kind.Connect? && a.connection && !room)
    && (p.Text? <==> (kind.Rpc? || kind.Poll?) && a.success.Some?)
    && (p.Null? <==> kind.Poll? && a.success.None? && !(a.fail.Some? && failRoom))
    && (p.Void? <==> (kind.Complete? || kind.Finalize?) && !(a.fail.Some? && failRoom))
    && (p.ConnectionError? <==> (kind.Connect? && !a.connection) || (kind.Rpc? && a.success.None? && a.status == 0))
    && (p.ServiceError? <==>
          || (kind.Rpc? && a.success.None? && a.status != 0)
          || ((kind.Poll? || kind.Complete? || kind.Finalize?) && a.fail.Some? && failRoom))
    && !p.Unwound?
    && (p.Text? ==> a.success == Some(p.b))
    && (p.ServiceError? || p.ConnectionError? ==> Tells(p, if failRoom then a.fail else None))
    && (p.ServiceError? && kind.Rpc? ==> p.status == a.status && p.d == if detailsRoom then a.details else None)
    && (p.ServiceError? && !kind.Rpc? ==> p.status == 0 && p.d.None?)
  }

  /** Through the shim's callback and the method together, PHP is told exactly that. */
  lemma ReportIsAnswer(kind: Kind, a: Answer, failRoom: bool, detailsRoom: bool, room: bool)
    requires Contract(kind, a)
    ensures Conveys(kind, a, failRoom, detailsRoom, room, Report(kind, Delivered(kind, a, failRoom, detailsRoom), room))
  {
  }

  /** What PHP has to be told when the shim could not set the operation up. */
  predicate ConveysFailure(kind: Kind, message: Option<Bytes>, p: Php) {
    && (p.ConnectionError? <==> kind.Connect? || kind.Rpc?)
    && (p.ServiceError? <==> (kind.Poll? || kind.Complete? || kind.Finalize?) && message.Some?)
    && (p.Null? <==> kind.Poll? && message.None?)
    && (p.Void? <==> (kind.Complete? || kind.Finalize?) && message.None?)
    && (p.ServiceError? || p.ConnectionError? ==> Tells(p, message))
    && (p.ServiceError? ==> p.status == 0 && p.d.None?)
  }

  /** A shim without memory is an exception, unless there is no memory for the message either: then
      a poll looks like a shutdown, and a completion like a success. */
  lemma ReportIsFailure(kind: Kind, message: Option<Bytes>, room: bool)
    ensures ConveysFailure(kind, message, Report(kind, Bundle(false, None, false, 0, message, None), room))
  {
  }

  /** The callbacks throw the message's length away and the methods print it with %s. So a message
      that the core gave arrives unchanged exactly when it could be copied and has no NUL. */
  lemma MessageArrives(kind: Kind, a: Answer, failRoom: bool, detailsRoom: bool, room: bool)
    requires Contract(kind, a) && a.fail.Some?
    requires var p := Report(kind, Delivered(kind, a, failRoom, detailsRoom), room);
             p.ServiceError? || p.ConnectionError?
    ensures var p := Report(kind, Delivered(kind, a, failRoom, detailsRoom), room);
            p.m == a.fail <==> failRoom && NUL !in a.fail.value
  {
  }

  /** For instance: all that PHP hears of this failed connect is an empty message. */
  lemma MessageCanBeCut(rest: Bytes, room: bool)
    ensures var a := Answer(false, None, Some([NUL] + rest), None, 0);
            && Contract(Connect, a)
            && Report(Connect, Delivered(Connect, a, true, true), room) == ConnectionError(Some([]))
  {
  }
}
