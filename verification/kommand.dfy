/**
 * The launch facade Kommand: a builder that collects the callbacks, the
 * deliverer and a launch delay, and hands the built bundle with the delay to
 * the dispatcher, optionally registering the returned token in a token box.
 *
 * The dispatcher and the token box are foreign collaborators; the classes
 * below stand in for them and only record what they are given.
 */
module Launch {
  import opened Wrappers
  import opened Lifecycle

  /** Java's long. */
  newtype int64 = x: int | -0x8000_0000_0000_0000 <= x < 0x8000_0000_0000_0000

  datatype IllegalArgument = IllegalArgument(message: string)

  /** The cancellation handle the dispatcher returns for a launched task. */
  datatype KommandToken = KommandToken(id: nat)

  /** The identity of the caller's tag object; null is one more identity. */
  datatype Tag = Tag(id: nat)

  /** The slots of the bundle builder: the action and what the setters put in. */
  datatype BundleSlots = BundleSlots(
    action: Action,
    onCompleted: Option<Callback>,
    onError: Option<Callback>,
    deliverer: Option<Deliverer>)

  /** The deliverer used when none was set: responses are released on the executor thread. */
  const InlineDeliverer := Deliverer(0)

  /** The bundle the builder produces from its slots. */
  function Build(slots: BundleSlots): (b: Bundle)
  {
    Bundle(slots.action, slots.onCompleted, slots.onError,
           if slots.deliverer.Some? then slots.deliverer.value else InlineDeliverer)
  }

  datatype Submission = Submission(bundle: Bundle, msDelay: int64, token: KommandToken)

  /** Stand-in for the dispatcher: it records each bundle and delay it is given and issues a token. */
  class Dispatcher {
    var submissions: seq<Submission>

    constructor ()
      ensures submissions == []
    {
      submissions := [];
    }

    method Kommand(bundle: Bundle, msDelay: int64) returns (token: KommandToken)
      modifies this
      ensures submissions == old(submissions) + [Submission(bundle, msDelay, token)]
    {
      token := KommandToken(|submissions|);
      submissions := submissions + [Submission(bundle, msDelay, token)];
    }
  }

  datatype Entry = Untagged(token: KommandToken) | Tagged(token: KommandToken, tag: Tag)

  /** Stand-in for the token box: it records the tokens appended to it. */
  class KommandTokenBox {
    var entries: seq<Entry>

    constructor ()
      ensures entries == []
    {
      entries := [];
    }

    method Append(token: KommandToken)
      modifies this
      ensures entries == old(entries) + [Untagged(token)]
    {
      entries := entries + [Untagged(token)];
    }

    method AppendTagged(token: KommandToken, tag: Tag)
      modifies this
      ensures entries == old(entries) + [Tagged(token, tag)]
    {
      entries := entries + [Tagged(token, tag)];
    }
  }

  class Kommand {
    const dispatcher: Dispatcher
    var slots: BundleSlots
    var msDelay: int64

    /** The delay is never negative. */
    ghost predicate Valid()
      reads this
    {
      msDelay >= 0
    }

    constructor (action: Action, dispatcher: Dispatcher)
      ensures Valid() && msDelay == 0 && this.dispatcher == dispatcher
      ensures slots == BundleSlots(action, None, None, None)
    {
      this.dispatcher := dispatcher;
      slots := BundleSlots(action, None, None, None);
      msDelay := 0;
    }

    /** Sets the success callback (an absent one is allowed) and returns this builder. */
    method SetOnCompleted(onCompleted: Option<Callback>) returns (self: Kommand)
      modifies this`slots
      ensures self == this
      ensures slots == old(slots).(onCompleted := onCompleted)
    {
      slots := slots.(onCompleted := onCompleted);
      self := this;
    }

    /** Sets the error callback and returns this builder. */
    method SetOnError(onError: Option<Callback>) returns (self: Kommand)
      modifies this`slots
      ensures self == this
      ensures slots == old(slots).(onError := onError)
    {
      slots := slots.(onError := onError);
      self := this;
    }

    /** Sets the deliverer and returns this builder. */
    method SetDelivered(deliverer: Option<Deliverer>) returns (self: Kommand)
      modifies this`slots
      ensures self == this
      ensures slots == old(slots).(deliverer := deliverer)
    {
      slots := slots.(deliverer := deliverer);
      self := this;
    }

    /** A negative delay is refused and the delay kept; any other is stored and this builder returned. */
    method Delay(ms: int64) returns (r: Result<Kommand, IllegalArgument>)
      requires Valid()
      modifies this`msDelay
      ensures Valid()
      ensures ms < 0 ==> r == Failure(IllegalArgument("Negative delay is not allowed")) && msDelay == old(msDelay)
      ensures ms >= 0 ==> r == Success(this) && msDelay == ms
    {
      if ms < 0 {
        return Failure(IllegalArgument("Negative delay is not allowed"));
      }
      msDelay := ms;
      r := Success(this);
    }

    /** kommand(): the built bundle and the delay, never negative, go to the dispatcher. */
    method Launch() returns (token: KommandToken)
      requires Valid()
      modifies dispatcher
      ensures dispatcher.submissions == old(dispatcher.submissions) + [Submission(Build(slots), msDelay, token)]
      ensures msDelay >= 0
    {
      token := dispatcher.Kommand(Build(slots), msDelay);
    }

    /** The null check on a token box. */
    static method AssertTokenBox(tokenBox: KommandTokenBox?) returns (err: Option<IllegalArgument>)
      ensures tokenBox == null <==> err == Some(IllegalArgument("Null tokenBox is not allowed"))
      ensures tokenBox != null <==> err.None?
    {
      if tokenBox == null {
        return Some(IllegalArgument("Null tokenBox is not allowed"));
      }
      return None;
    }

    /**
     * kommand(tokenBox): a null box is refused before anything is dispatched;
     * otherwise the task is launched and its token appended to the box.
     */
    method LaunchInto(tokenBox: KommandTokenBox?) returns (err: Option<IllegalArgument>)
      requires Valid()
      modifies dispatcher, tokenBox
      ensures tokenBox == null ==>
        err == Some(IllegalArgument("Null tokenBox is not allowed")) && unchanged(dispatcher)
      ensures tokenBox != null ==>
        && err.None?
        && |dispatcher.submissions| == |old(dispatcher.submissions)| + 1
        && var last := dispatcher.submissions[|dispatcher.submissions| - 1];
        && dispatcher.submissions == old(dispatcher.submissions) + [Submission(Build(slots), msDelay, last.token)]
        && tokenBox.entries == old(tokenBox.entries) + [Untagged(last.token)]
    {
      err := AssertTokenBox(tokenBox);
      if err.Some? {
        return;
      }
      var token := Launch();
      tokenBox.Append(token);
    }

    /**
     * kommand(tokenBox, tag): as LaunchInto, but the token is appended with the
     * caller's tag.
     */
    method LaunchTagged(tokenBox: KommandTokenBox?, tag: Tag) returns (err: Option<IllegalArgument>)
      requires Valid()
      modifies dispatcher, tokenBox
      ensures tokenBox == null ==>
        err == Some(IllegalArgument("Null tokenBox is not allowed")) && unchanged(dispatcher)
      ensures tokenBox != null ==>
        && err.None?
        && |dispatcher.submissions| == |old(dispatcher.submissions)| + 1
        && var last := dispatcher.submissions[|dispatcher.submissions| - 1];
        && dispatcher.submissions == old(dispatcher.submissions) + [Submission(Build(slots), msDelay, last.token)]
        && tokenBox.entries == old(tokenBox.entries) + [Tagged(last.token, tag)]
    {
      err := AssertTokenBox(tokenBox);
      if err.Some? {
        return;
      }
      var token := Launch();
      tokenBox.AppendTagged(token, tag);
    }
  }
}
