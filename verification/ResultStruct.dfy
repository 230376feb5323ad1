/** What the methods of Core\Connection and Core\Worker do with the bundle they collected, release
    by release, in the order of the C code. */
module ResultStruct {
  import opened CStrings
  import opened Results

  /** Where the resources of one bundle stand. Every operation demands that what it touches is
      still allocated; freeing NULL is no operation. */
  class Resources {
    var pay: Payload

    /** The resources of a bundle whose ownership has passed to the method. */
    constructor (b: Bundle)
      ensures pay == PayloadOf(b, Live)
    {
      pay := PayloadOf(b, Live);
    }

    /** temporal_php_connection_free. */
    method FreeConnection()
      requires pay.connection.Live?
      modifies this
      ensures pay == old(pay).(connection := Freed)
    {
      pay := pay.(connection := Freed);
    }

    /** temporal_php_response_free. */
    method FreeOwner(owner: bool)
      requires owner ==> pay.owner.Live?
      modifies this
      ensures pay == if owner then old(pay).(owner := Freed) else old(pay)
    {
      if owner {
        pay := pay.(owner := Freed);
      }
    }

    /** free(out.r.fail). */
    method FreeFail(fail: Option<Bytes>)
      requires fail.Some? ==> pay.fail.Live?
      modifies this
      ensures pay == if fail.Some? then old(pay).(fail := Freed) else old(pay)
    {
      if fail.Some? {
        pay := pay.(fail := Freed);
      }
    }

    /** free(out.r.details). */
    method FreeDetails(details: Option<Bytes>)
      requires details.Some? ==> pay.details.Live?
      modifies this
      ensures pay == if details.Some? then old(pay).(details := Freed) else old(pay)
    {
      if details.Some? {
        pay := pay.(details := Freed);
      }
    }

    /** An exception message formatted from `fail` with %s. */
    method ReadFail(fail: Option<Bytes>) returns (m: Option<Bytes>)
      requires fail.Some? ==> pay.fail.Live?
      ensures m == Told(fail)
    {
      m := None;
      if fail.Some? {
        var n := 0;
        while n < |fail.value| && fail.value[n] != NUL
          invariant n <= |fail.value| && NUL !in fail.value[..n]
        {
          n := n + 1;
        }
        UpToNul(fail.value, n);
        m := Some(fail.value[..n]);
      }
    }

    /** RETVAL_STRINGL: a PHP string copied from the core buffer. */
    method ReadData(data: Bytes) returns (copy: Bytes)
      requires pay.owner.Live?
      ensures copy == data
    {
      copy := data;
    }

    /** temporal_result_drop. */
    method DropAll(r: Bundle)
      requires CanDrop(pay, r)
      modifies this
      ensures pay == Drop(old(pay), r)
    {
      if r.connection {
        FreeConnection();
      }
      if r.owner {
        FreeOwner(r.owner);
      }
      FreeFail(r.fail);
      FreeDetails(r.details);
    }

    /** The connection passes into a handle, unless there is no `room` for one. */
    method KeepConnection(room: bool) returns (kept: bool)
      requires pay.connection.Live?
      modifies this
      ensures kept == room && pay == old(pay).(connection := if kept then Adopted else Freed)
    {
      kept := room;
      if kept {
        pay := pay.(connection := Adopted);
      } else {
        FreeConnection();
      }
    }

    /** Connection::__construct after temporal_run_connect; `room` says whether
        temporal_php_handle_new could allocate. */
    method FinishConnect(b: Bundle, room: bool) returns (php: Php)
      requires CanConsume(Connect, pay, b)
      modifies this
      ensures pay == Consume(Connect, old(pay), b, room) && php == Report(Connect, b, room)
    {
      if !b.connection {
        var m := ReadFail(b.fail);
        FreeFail(b.fail);
        return ConnectionError(m);
      }
      var kept := KeepConnection(room);
      php := if kept then Constructed else NoMemory;
    }

    /** rpcCall after temporal_run_rpc. */
    method FinishRpc(b: Bundle, room: bool) returns (php: Php)
      requires CanConsume(Rpc, pay, b)
      modifies this
      ensures pay == Consume(Rpc, old(pay), b, room) && php == Report(Rpc, b, room)
    {
      if b.data.None? {
        var m := ReadFail(b.fail);
        php := if b.status != 0 then ServiceError(m, b.status, b.details) else ConnectionError(m);
        FreeFail(b.fail);
        FreeDetails(b.details);
        return;
      }
      var text := ReadData(b.data.value);
      php := Text(text);
      FreeOwner(b.owner);
      FreeFail(b.fail);
      FreeDetails(b.details);
    }

    /** pollActivityTask and pollWorkflowActivation after temporal_run_worker_poll. */
    method FinishPoll(b: Bundle, room: bool) returns (php: Php)
      requires CanConsume(Poll, pay, b)
      modifies this
      ensures pay == Consume(Poll, old(pay), b, room) && php == Report(Poll, b, room)
    {
      if b.fail.Some? {
        var m := ReadFail(b.fail);
        FreeFail(b.fail);
        return ServiceError(m, 0, None);
      }
      if b.data.None? {
        return Null;
      }
      var text := ReadData(b.data.value);
      php := Text(text);
      FreeOwner(b.owner);
    }

    /** completeActivityTask, completeWorkflowActivation and finalizeShutdown. */
    method FinishVoid(kind: Kind, b: Bundle, room: bool) returns (php: Php)
      requires kind.Void() && CanConsume(kind, pay, b)
      modifies this
      ensures pay == Consume(kind, old(pay), b, room) && php == Report(kind, b, room)
    {
      if b.fail.Some? {
        var m := ReadFail(b.fail);
        FreeFail(b.fail);
        return ServiceError(m, 0, None);
      }
      php := Void;
    }
  }
}
