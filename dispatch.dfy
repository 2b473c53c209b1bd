/**
 * The producer's state and what one delivered interest, or one pass of the
 * rotation check, does to it: the specification that the Producer class of
 * module Server is proved against.
 */
module Dispatch {
  import opened Wrappers
  import opened Names
  import opened AccessCodes

  /** The three LED outputs (true = high) and the current access code with its timestamp (ms). */
  datatype State = State(led1: bool, led2: bool, led3: bool, accessCode: string, accessCodeTS: int)

  /**
   * An interest as delivered to the handler: its name rendered as URI text,
   * and the value of the handler's fourth argument `l` for that call, which
   * the reply carries as its freshness period. What `l` stands for is fixed
   * by the networking library's callback interface, not by the handler.
   */
  datatype Interest = Interest(name: string, handlerArg: int)

  /** The reply handed to the transport: same name as the interest, a text content. */
  datatype Data = Data(name: string, content: string, freshnessPeriod: int)

  datatype Outcome = Outcome(state: State, reply: Option<Data>)

  const InvalidLed: string := "Invalid LED"

  /** The producer's invariant: the access code is one rotation can produce. */
  predicate ValidState(st: State) {
    ValidCode(st.accessCode)
  }

  /** The LED the id string selects, compared as a string: 1, 2, 3, or 0 for none. */
  function LedIndex(id: string): (k: int)
    ensures 0 <= k <= 3
    ensures k != 0 ==> id == DecimalString(k)
    ensures k == 0 ==> forall j :: 1 <= j <= 3 ==> id != DecimalString(j)
  {
    if id == "1" then 1 else if id == "2" then 2 else if id == "3" then 3 else 0
  }

  function Led(st: State, k: int): bool
    requires 1 <= k <= 3
  {
    if k == 1 then st.led1 else if k == 2 then st.led2 else st.led3
  }

  function OnOff(high: bool): string {
    if high then "on" else "off"
  }

  /** The reply text for LED `id` whose state is now `high`. */
  function Status(id: string, high: bool): string {
    "LED #" + id + " is now " + OnOff(high)
  }

  /** Toggles LED k; every other field is left as it was. */
  function Flip(st: State, k: int): (r: State)
    requires 1 <= k <= 3
    ensures Led(r, k) == !Led(st, k)
    ensures forall j :: 1 <= j <= 3 && j != k ==> Led(r, j) == Led(st, j)
    ensures r.accessCode == st.accessCode && r.accessCodeTS == st.accessCodeTS
  {
    if k == 1 then st.(led1 := !st.led1)
    else if k == 2 then st.(led2 := !st.led2)
    else st.(led3 := !st.led3)
  }

  /**
   * The interest handler: drop a name that does not match or carries the
   * wrong code; otherwise toggle the selected LED (whatever the action says)
   * and reply with the new state, or reply "Invalid LED".
   */
  function Handle(st: State, i: Interest): (o: Outcome)
    ensures o.state.accessCode == st.accessCode && o.state.accessCodeTS == st.accessCodeTS
    ensures o.reply.Some? ==> o.reply.value.name == i.name && o.reply.value.freshnessPeriod == i.handlerArg
  {
    match ParseName(i.name)
    case None => Outcome(st, None)
    case Some(c) =>
      if c.code != st.accessCode then Outcome(st, None)
      else
        var k := LedIndex(c.led);
        if k == 0 then Outcome(st, Some(Data(i.name, InvalidLed, i.handlerArg)))
        else
          var next := Flip(st, k);
          Outcome(next, Some(Data(i.name, Status(c.led, Led(next, k)), i.handlerArg)))
  }

  /** The name carries a well-formed command whose code is the current one. */
  ghost predicate Authorized(st: State, name: string) {
    exists c :: WellFormed(c) && name == Render(c) && c.code == st.accessCode
  }

  /** The state at start-up: all LEDs low, a first code drawn from sample u, stamped now. */
  function Init(now: int, u: real): State
    requires 0.0 <= u < 1.0
  {
    State(false, false, false, DecimalString(CodeFromRandom(u)), now)
  }

  /** The rotation check of one main-loop pass at time `now`, drawing from sample u if due. */
  function Rotate(st: State, now: int, u: real): State
    requires 0.0 <= u < 1.0
  {
    if now - st.accessCodeTS >= RotationPeriod
    then st.(accessCode := DecimalString(CodeFromRandom(u)), accessCodeTS := now)
    else st
  }

  /** The result of delivering a batch of interests in order. */
  datatype Run = Run(state: State, sent: seq<Data>)

  function Replies(reply: Option<Data>): seq<Data> {
    if reply.Some? then [reply.value] else []
  }

  /** Delivers the interests one after another, collecting the replies sent. */
  function ProcessAll(st: State, pending: seq<Interest>): Run
  {
    if pending == [] then Run(st, [])
    else
      var before := ProcessAll(st, pending[..|pending| - 1]);
      var o := Handle(before.state, pending[|pending| - 1]);
      Run(o.state, before.sent + Replies(o.reply))
  }

  // ----- Properties of the handler -----

  /** A name outside the pattern gets no reply and changes nothing. */
  lemma HandleDropsUnmatched(st: State, i: Interest)
    requires !MatchesPattern(i.name)
    ensures Handle(st, i) == Outcome(st, None)
  {
    ParseNameMatchesPattern(i.name);
  }

  /** A well-formed name with a code other than the current one gets no reply and changes nothing. */
  lemma HandleDropsWrongCode(st: State, c: Command, arg: int)
    requires WellFormed(c) && c.code != st.accessCode
    ensures Handle(st, Interest(Render(c), arg)) == Outcome(st, None)
  {
    ParseNameComplete(c);
  }

  /** An authorized request for LED k flips exactly that LED and reports its new state. */
  lemma HandleTogglesSelectedLed(st: State, c: Command, arg: int, k: int)
    requires WellFormed(c) && c.code == st.accessCode
    requires 1 <= k <= 3 && c.led == DecimalString(k)
    ensures var o := Handle(st, Interest(Render(c), arg));
      && Led(o.state, k) == !Led(st, k)
      && (forall j :: 1 <= j <= 3 && j != k ==> Led(o.state, j) == Led(st, j))
      && o.state.accessCode == st.accessCode && o.state.accessCodeTS == st.accessCodeTS
      && o.reply == Some(Data(Render(c), "LED #" + c.led + " is now " + OnOff(!Led(st, k)), arg))
  {
    ParseNameComplete(c);
    assert LedIndex(c.led) == k;
  }

  /** An authorized request whose id is not exactly "1", "2" or "3" is answered "Invalid LED" and changes nothing. */
  lemma HandleAnswersInvalidLed(st: State, c: Command, arg: int)
    requires WellFormed(c) && c.code == st.accessCode
    requires forall k :: 1 <= k <= 3 ==> c.led != DecimalString(k)
    ensures Handle(st, Interest(Render(c), arg)) == Outcome(st, Some(Data(Render(c), "Invalid LED", arg)))
  {
    ParseNameComplete(c);
    assert DecimalString(1) == "1" && DecimalString(2) == "2" && DecimalString(3) == "3";
  }

  /** The action token is not consulted: on, off and toggle leave the same state and reply text. */
  lemma HandleIgnoresAction(st: State, c: Command, a: Action, b: Action, arg: int)
    requires WellFormed(c)
    ensures var x := Handle(st, Interest(Render(c.(action := a)), arg));
            var y := Handle(st, Interest(Render(c.(action := b)), arg));
      && x.state == y.state
      && x.reply.Some? == y.reply.Some?
      && (x.reply.Some? ==> x.reply.value.content == y.reply.value.content)
  {
    ParseNameComplete(c.(action := a));
    ParseNameComplete(c.(action := b));
  }

  /** Delivering the same interest twice leaves every LED, and the code, as before. */
  lemma HandleTwiceRestores(st: State, i: Interest)
    ensures Handle(Handle(st, i).state, i).state == st
  {
  }

  /** A reply is sent if and only if the name matches the pattern and carries the current code. */
  lemma HandleRepliesIffAuthorized(st: State, i: Interest)
    ensures Handle(st, i).reply.Some? <==> Authorized(st, i.name)
  {
    ParseNameSound(i.name);
    if Authorized(st, i.name) {
      var c :| WellFormed(c) && i.name == Render(c) && c.code == st.accessCode;
      ParseNameComplete(c);
    }
  }

  /** A code written with a leading zero ("042", "0") never matches a code the producer holds. */
  lemma HandleRefusesLeadingZero(st: State, c: Command, arg: int)
    requires ValidState(st) && WellFormed(c) && c.code[0] == '0'
    ensures Handle(st, Interest(Render(c), arg)) == Outcome(st, None)
  {
    HandleDropsWrongCode(st, c, arg);
  }

  // ----- Properties of start-up and rotation -----

  /** At start-up every LED is low and the code is a valid two-digit code stamped now. */
  lemma InitSpec(now: int, u: real)
    requires 0.0 <= u < 1.0
    ensures var st := Init(now, u);
      !st.led1 && !st.led2 && !st.led3 && ValidState(st) && st.accessCodeTS == now
  {
    CodeTextValid(CodeFromRandom(u));
  }

  /**
   * Rotation never touches the LEDs; once the period has elapsed it installs
   * the text of a value in [10, 99] stamped now, and before that it changes nothing.
   */
  lemma RotateSpec(st: State, now: int, u: real)
    requires 0.0 <= u < 1.0
    ensures var r := Rotate(st, now, u);
      && r.led1 == st.led1 && r.led2 == st.led2 && r.led3 == st.led3
      && (now - st.accessCodeTS < RotationPeriod ==> r == st)
      && (now - st.accessCodeTS >= RotationPeriod ==>
            r.accessCodeTS == now && ValidState(r)
            && exists n :: 10 <= n <= 99 && r.accessCode == DecimalString(n))
  {
    var n := CodeFromRandom(u);
    CodeTextValid(n);
  }

  /** Rotation keeps the invariant. */
  lemma RotatePreservesValid(st: State, now: int, u: real)
    requires 0.0 <= u < 1.0 && ValidState(st)
    ensures ValidState(Rotate(st, now, u))
  {
    CodeTextValid(CodeFromRandom(u));
  }

  // ----- Properties of a batch of deliveries -----

  /** Handling requests never changes the code or its timestamp, and keeps the invariant. */
  lemma {:induction false} ProcessAllKeepsCode(st: State, pending: seq<Interest>)
    ensures ProcessAll(st, pending).state.accessCode == st.accessCode
    ensures ProcessAll(st, pending).state.accessCodeTS == st.accessCodeTS
    ensures ValidState(st) ==> ValidState(ProcessAll(st, pending).state)
  {
    if pending != [] {
      ProcessAllKeepsCode(st, pending[..|pending| - 1]);
    }
  }

  /**
   * The replies of a batch answer the pending interests one to one and in
   * order: reply j answers interest origin[j], carrying its name and handler
   * argument, and the interests answered are exactly those authorized by the
   * code current at the start of the batch.
   */
  lemma {:induction false} ProcessAllRepliesAuthorized(st: State, pending: seq<Interest>)
    returns (origin: seq<int>)
    ensures var sent := ProcessAll(st, pending).sent;
      && |origin| == |sent| <= |pending|
      && (forall j :: 0 <= j < |origin| ==> 0 <= origin[j] < |pending|)
      && (forall j, j' :: 0 <= j < j' < |origin| ==> origin[j] < origin[j'])
      && (forall j :: 0 <= j < |origin| ==>
            sent[j].name == pending[origin[j]].name
            && sent[j].freshnessPeriod == pending[origin[j]].handlerArg)
      && (forall k :: 0 <= k < |pending| ==> (k in origin <==> Authorized(st, pending[k].name)))
  {
    if pending == [] {
      origin := [];
    } else {
      var n := |pending| - 1;
      var prefix := pending[..n];
      var before := ProcessAll(st, prefix);
      var earlier := ProcessAllRepliesAuthorized(st, prefix);
      ProcessAllKeepsCode(st, prefix);
      var i := pending[n];
      HandleRepliesIffAuthorized(before.state, i);
      assert Authorized(before.state, i.name) == Authorized(st, i.name);
      var o := Handle(before.state, i);
      origin := earlier + (if o.reply.Some? then [n] else []);
      forall k | 0 <= k < n
        ensures pending[k] == prefix[k]
        ensures k in origin <==> k in earlier
      {
      }
    }
  }
}
