/**
 * The producer object: the three LED outputs and the access code are fields
 * that the interest handler and the main loop update in place. Each method
 * is proved against the state functions of module Dispatch.
 */
module Server {
  import opened Wrappers
  import opened Names
  import opened AccessCodes
  import opened Dispatch

  class Producer {
    var led1: bool
    var led2: bool
    var led3: bool
    var accessCode: string
    var accessCodeTS: int

    /** The fields as a Dispatch.State value. */
    function Snapshot(): State
      reads this
    {
      State(led1, led2, led3, accessCode, accessCodeTS)
    }

    ghost predicate Valid()
      reads this
    {
      ValidState(Snapshot())
    }

    /** Start-up: every LED provisioned low, then the first code drawn from sample u at time now. */
    constructor (now: int, u: real)
      requires 0.0 <= u < 1.0
      ensures Snapshot() == Init(now, u)
      ensures Valid()
    {
      led1, led2, led3 := false, false, false;
      accessCode := DecimalString(CodeFromRandom(u));
      accessCodeTS := now;
      InitSpec(now, u);
    }

    /** The interest handler: the reply put on the face, if any, and the LED toggled in place. */
    method OnInterest(i: Interest) returns (reply: Option<Data>)
      requires Valid()
      modifies this
      ensures Valid()
      ensures Snapshot() == Handle(old(Snapshot()), i).state
      ensures reply == Handle(old(Snapshot()), i).reply
    {
      var matched := ParseName(i.name);
      if matched.None? {
        return None;
      }
      var c := matched.value;
      if c.code != accessCode {
        return None;
      }
      var content := InvalidLed;
      if c.led == "1" {
        led1 := !led1;
        content := Status("1", led1);
      } else if c.led == "2" {
        led2 := !led2;
        content := Status("2", led2);
      } else if c.led == "3" {
        led3 := !led3;
        content := Status("3", led3);
      }
      reply := Some(Data(i.name, content, i.handlerArg));
    }

    /** The rotation check of the main loop at time now, with random sample u. */
    method RotateIfExpired(now: int, u: real)
      requires Valid() && 0.0 <= u < 1.0
      modifies this
      ensures Valid()
      ensures Snapshot() == Rotate(old(Snapshot()), now, u)
    {
      if now - accessCodeTS >= RotationPeriod {
        accessCode := DecimalString(CodeFromRandom(u));
        accessCodeTS := now;
      }
      RotatePreservesValid(old(Snapshot()), now, u);
    }

    /**
     * One pass of the main loop: the pending interests are handled in order
     * (processEvents), then the code is rotated if due.
     */
    method Iteration(pending: seq<Interest>, now: int, u: real) returns (sent: seq<Data>)
      requires Valid() && 0.0 <= u < 1.0
      modifies this
      ensures Valid()
      ensures sent == ProcessAll(old(Snapshot()), pending).sent
      ensures Snapshot() == Rotate(ProcessAll(old(Snapshot()), pending).state, now, u)
    {
      sent := [];
      var j := 0;
      while j < |pending|
        invariant 0 <= j <= |pending|
        invariant Valid()
        invariant Snapshot() == ProcessAll(old(Snapshot()), pending[..j]).state
        invariant sent == ProcessAll(old(Snapshot()), pending[..j]).sent
      {
        assert pending[..j + 1][..j] == pending[..j];
        var reply := OnInterest(pending[j]);
        sent := sent + Replies(reply);
        j := j + 1;
      }
      assert pending[..j] == pending;
      RotateIfExpired(now, u);
    }
  }
}
