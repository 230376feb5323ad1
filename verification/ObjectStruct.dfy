/** The Zend objects of Core\Connection and Core\Worker, with the functions that change their
    fields as methods. */
module ObjectStruct {
  import opened Results
  import opened CallMachine
  import Bridge
  import opened HandleStruct
  import opened ResultStruct

  class Connection {
    var refs: nat                    // the Zend refcount
    var freed: bool
    var connection: Handle?

    /** What every user of the object finds. */
    ghost predicate Valid()
      reads this, connection
    {
      !freed && refs > 0 && (connection != null ==> connection.Valid())
    }

    /** temporal_connection_create_object. */
    constructor ()
      ensures Valid() && refs == 1 && connection == null
    {
      refs, freed, connection := 1, false, null;
    }

    /** The end of __construct: the core connection goes into a new handle, or back to the core. `res`
        are the resources of the collected bundle, `room` says whether the handle could be allocated. */
    method Adopt(res: Resources, room: bool, ghost o: nat) returns (adopted: bool)
      requires Valid() && connection == null && res.pay.connection.Live?
      modifies this`connection, res
      ensures Valid() && adopted == room
      ensures if adopted then connection != null && fresh(connection) && connection.rec == Bridge.NewHandle(o)
              else connection == null
      ensures res.pay == old(res.pay).(connection := if adopted then Adopted else Freed)
    {
      adopted := res.KeepConnection(room);
      if adopted {
        connection := new Handle(o);
      }
    }

    /** temporal_connection_free_object. */
    method FreeObject(ghost t: Thread)
      requires !freed && refs == 0 && (connection != null ==> connection.Valid())
      modifies this, connection
      ensures freed && connection == null && refs == 0
      ensures var h := old(connection); h != null ==> h.rec == AfterRelease(old(h.rec), t)
      ensures var h := old(connection); h != null ==> if old(h.refcount) == 1 then h.box.Freed? else h.Valid()
    {
      if connection != null {
        connection.Drop(t);
        connection := null;
      }
      freed := true;
    }

    /** OBJ_RELEASE. */
    method Release(ghost t: Thread)
      requires Valid()
      modifies this, connection
      ensures refs == old(refs) - 1
      ensures if old(refs) == 1 then freed && connection == null else Valid() && connection == old(connection)
      ensures var h := old(connection);
              h != null ==> h.rec == if old(refs) == 1 then AfterRelease(old(h.rec), t) else old(h.rec)
    {
      refs := refs - 1;
      if refs == 0 {
        FreeObject(t);
      }
    }
  }

  /** What temporal_php_worker_new hands back: a core worker, or a heap message if there was memory. */
  class NewWorker {
    var box: Cell
    var err: Cell

    constructor (core: bool, message: bool)
      ensures box == (if core then Live else Absent) && err == (if !core && message then Live else Absent)
    {
      box := if core then Live else Absent;
      err := if !core && message then Live else Absent;
    }

    /** temporal_php_worker_free. */
    method FreeBox()
      requires box.Live?
      modifies this
      ensures box.Freed? && err == old(err)
    {
      box := Freed;
    }

    /** free(err). */
    method FreeErr()
      requires !err.Freed?
      modifies this
      ensures err == (if old(err).Live? then Freed else old(err)) && box == old(box)
    {
      if err.Live? {
        err := Freed;
      }
    }

    /** temporal_php_handle_new. */
    method KeepBox()
      requires box.Live?
      modifies this
      ensures box.Adopted? && err == old(err)
    {
      box := Adopted;
    }
  }

  class Worker {
    var worker: Handle?
    var connection: Connection?
    var finalized: bool

    /** A worker with a core box has a connection object, which it keeps alive. */
    ghost predicate Valid()
      reads this, worker, connection, if connection == null then {} else {connection.connection}
    {
      && (worker != null ==> worker.Valid() && connection != null)
      && (connection != null ==> connection.Valid() && (worker != null ==> connection.connection != worker))
    }

    /** temporal_worker_create_object. */
    constructor ()
      ensures Valid() && worker == null && connection == null && !finalized
    {
      worker, connection, finalized := null, null, false;
    }

    /** The end of __construct. `made` is what the core handed back, `room` says whether the handle could
        be allocated. Without both the object stays empty, pins nothing and leaks nothing. */
    method Construct(conn: Connection, made: NewWorker, room: bool, ghost o: nat) returns (ok: bool)
      requires Valid() && worker == null && connection == null && conn.Valid() && conn.connection != null
      requires (made.box.Live? && made.err.Absent?) || (made.box.Absent? && !made.err.Freed?)
      modifies this`worker, this`connection, conn`refs, made
      ensures Valid() && conn.Valid() && ok == (old(made.box).Live? && room)
      ensures if ok then
                && worker != null && worker.rec == Bridge.NewHandle(o)
                && connection == conn && conn.refs == old(conn.refs) + 1
              else
                worker == null && connection == null && conn.refs == old(conn.refs)
      ensures made.box == if old(made.box).Absent? then Absent else if ok then Adopted else Freed
      ensures !made.err.Live?
    {
      ok := false;
      if made.box.Absent? {
        made.FreeErr();
        return;
      }
      if !room {
        made.FreeBox();
        return;
      }
      made.KeepBox();
      worker := new Handle(o);
      connection := conn;
      conn.refs := conn.refs + 1;
      ok := true;
    }

    /** TEMPORAL_REQUIRE_LIVE_WORKER. */
    predicate Live()
      reads this
    {
      worker != null && !finalized
    }

    /** finalizeShutdown once temporal_run_worker_finalize is back: the guard shuts however it went. */
    method AfterFinalize(out: Outcome, res: Resources) returns (php: Php)
      requires Live() && !out.NoOutcome? && (out.Got? ==> CanConsume(Finalize, res.pay, out.b))
      modifies this`finalized, res
      ensures finalized && !Live()
      ensures if out.Got? then
                php == Report(Finalize, out.b, true) && res.pay == Consume(Finalize, old(res.pay), out.b, true)
              else
                php == Unwound && res.pay == old(res.pay)
    {
      finalized := true;
      if out.Cancelled? {
        return Unwound;
      }
      php := res.FinishVoid(Finalize, out.b, true);
    }

    /** temporal_worker_free_object: first the core worker, then the connection it was built on. */
    method FreeObject(ghost t: Thread)
      requires Valid()
      modifies this, worker, connection, if connection == null then {} else {connection.connection}
      ensures worker == null && connection == null
      ensures var h := old(worker); h != null ==> h.rec == AfterRelease(old(h.rec), t)
      ensures var k := old(connection);
              k != null ==> k.refs == old(k.refs) - 1 && (if old(k.refs) == 1 then k.freed else k.Valid())
      ensures var k := old(connection); k != null ==> var h := old(k.connection);
              h != null ==> h.rec == if old(k.refs) == 1 then AfterRelease(old(h.rec), t) else old(h.rec)
    {
      if worker != null {
        worker.Drop(t);
        worker := null;
      }
      if connection != null {
        connection.Release(t);
        connection := null;
      }
    }
  }
}
