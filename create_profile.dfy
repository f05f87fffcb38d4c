/** The server action that makes sure a signed-in user has a `profiles` row: a lookup, then at
    most three insert attempts with a growing wait after each failure. The backend's answers
    are parameters (the lookup's, and one scripted `Insert` per attempt); the waits are
    returned as the list of delays, in milliseconds, instead of being slept. */
module CreateProfile {
  import opened Wrappers
  import opened Records

  const MaxAttempts := 3
  /** The code the backend gives when `.single()` finds no row. */
  const NotFoundCode := "PGRST116"
  /** The final error when the kept error value is null or otherwise falsy. */
  const GivingUp := "Failed after multiple attempts"

  /** A value the action keeps as an error: an `Error` instance, known by its `message`, or
      any other value (a plain error object the backend returned, a thrown string), known by
      what `String(value)` gives and by whether it is truthy. */
  datatype Raised = ErrorInstance(message: string) | OtherValue(text: string, truthy: bool)

  predicate Truthy(e: Raised)
  {
    e.ErrorInstance? || e.truthy
  }

  /** What the existence check returned: whether a row came back and the error code, if
      any; or the check threw the value `error`. */
  datatype Lookup = Lookup(found: bool, errorCode: Option<string>) | LookupThrew(error: Raised)

  /** How one insert attempt ended: the call answered with no `error` field, it answered
      with the value `error` in that field, or it threw the value `error`. */
  datatype Insert = Inserted | Returned(error: Raised) | Thrown(error: Raised)

  /** `!insertError`: the attempt succeeded. */
  predicate Answers(o: Insert)
  {
    o.Inserted? || (o.Returned? && !Truthy(o.error))
  }

  datatype ProfileResult = Success(message: string) | Failure(error: string)

  /** The text the action reports for the error value it kept last (`None` while it is
      still `null`): an `Error`'s message, `String(value)` for any other truthy value, and
      the giving-up text for a falsy one. */
  function FinalError(last: Option<Raised>): string
  {
    if last.None? || !Truthy(last.value) then GivingUp
    else if last.value.ErrorInstance? then last.value.message
    else last.value.text
  }

  /** The text the outer catch reports: an `Error`'s message, or the generic text for any
      other thrown value. */
  function CaughtError(e: Raised): string
  {
    if e.ErrorInstance? then e.message else "Unknown error creating profile"
  }

  /** The insert phase: how it ends, how many inserts were made, and the waits in order. */
  datatype Tries = Tries(result: ProfileResult, attempts: nat, waits: seq<nat>)

  /** The wait after a failed attempt `k` (from 0): a returned error waits 1000·(k+1) ms; a
      thrown one bumps the counter first and waits 1000·(k+2) ms. */
  function Delay(o: Insert, k: nat): nat
  {
    if o.Thrown? then 1000 * (k + 2) else 1000 * (k + 1)
  }

  /** The insert phase from attempt `k` on, `last` being the error value of the latest
      failure. */
  function RetryFrom(inserts: seq<Insert>, k: nat, last: Option<Raised>): Tries
    decreases MaxAttempts - k
  {
    if k >= MaxAttempts then
      Tries(Failure(FinalError(last)), k, [])
    else
      var o := At(inserts, k, Inserted);
      if Answers(o) then Tries(Success("Profile created successfully"), k + 1, [])
      else
        var rest := RetryFrom(inserts, k + 1, Some(o.error));
        rest.(waits := [Delay(o, k)] + rest.waits)
  }

  function Retry(inserts: seq<Insert>): Tries
  {
    RetryFrom(inserts, 0, None)
  }

  /** The first answered attempt at or after `k`, or `MaxAttempts` when none of the
      remaining attempts answers. */
  function FirstAnswered(inserts: seq<Insert>, k: nat): (j: nat)
    requires k <= MaxAttempts
    ensures k <= j <= MaxAttempts
    ensures forall i :: k <= i < j ==> !Answers(At(inserts, i, Inserted))
    ensures j < MaxAttempts ==> Answers(At(inserts, j, Inserted))
    decreases MaxAttempts - k
  {
    if k == MaxAttempts || Answers(At(inserts, k, Inserted)) then k
    else FirstAnswered(inserts, k + 1)
  }

  /** From attempt `k`: the phase succeeds iff one of the remaining attempts answers, and then
      the attempts made end with that one; it waits once after each failed attempt, for the
      failure's delay; a phase that fails made every attempt and reports the text of the
      last failure's error value. */
  lemma {:induction false} RetryFromShape(inserts: seq<Insert>, k: nat, last: Option<Raised>)
    requires k <= MaxAttempts
    ensures var t := RetryFrom(inserts, k, last);
            var j := FirstAnswered(inserts, k);
            && (t.result.Success? <==> j < MaxAttempts)
            && (t.result.Success? ==> t.result.message == "Profile created successfully"
                                      && t.attempts == j + 1)
            && (t.result.Failure? ==> t.attempts == MaxAttempts)
            && |t.waits| == j - k
            && (forall i :: k <= i < j ==> t.waits[i - k] == Delay(At(inserts, i, Inserted), i))
            && (t.result.Failure? && k < MaxAttempts ==>
                  t.result.error == FinalError(Some(At(inserts, MaxAttempts - 1, Inserted).error)))
            && (t.result.Failure? && k == MaxAttempts ==> t.result.error == FinalError(last))
    decreases MaxAttempts - k
  {
    if k < MaxAttempts && !Answers(At(inserts, k, Inserted)) {
      var o := At(inserts, k, Inserted);
      RetryFromShape(inserts, k + 1, Some(o.error));
      var rest := RetryFrom(inserts, k + 1, Some(o.error));
      var t := RetryFrom(inserts, k, last);
      assert t.waits == [Delay(o, k)] + rest.waits;
      forall i | k < i < FirstAnswered(inserts, k)
        ensures t.waits[i - k] == Delay(At(inserts, i, Inserted), i)
      {
        assert t.waits[i - k] == rest.waits[i - (k + 1)];
      }
    }
  }

  /** The whole insert phase: between one and three inserts; success iff one of the three
      attempts answers, after the first such attempt; one wait per failed attempt, the third
      failure included. A failed phase reports the third failure's error value: its `message`
      when it is an `Error`, `String(value)` when it is another truthy value (a plain error
      object the backend returned gives "[object Object]"), and the giving-up text when it is
      falsy, which only a thrown value can be. */
  lemma RetryShape(inserts: seq<Insert>)
    ensures var t := Retry(inserts);
            var j := FirstAnswered(inserts, 0);
            && 1 <= t.attempts <= MaxAttempts
            && (t.result.Success? <==> exists i :: 0 <= i < MaxAttempts && Answers(At(inserts, i, Inserted)))
            && (t.result.Success? ==> t.attempts == j + 1 && |t.waits| == j)
            && (t.result.Failure? ==> |t.waits| == MaxAttempts)
            && (t.result.Failure? ==>
                  var o := At(inserts, MaxAttempts - 1, Inserted);
                  && (o.error.ErrorInstance? ==> t.result.error == o.error.message)
                  && (o.error.OtherValue? && o.error.truthy ==> t.result.error == o.error.text)
                  && (!Truthy(o.error) ==> o.Thrown? && t.result.error == GivingUp))
            && (forall i :: 0 <= i < |t.waits| ==> t.waits[i] == Delay(At(inserts, i, Inserted), i))
  {
    RetryFromShape(inserts, 0, None);
    var j := FirstAnswered(inserts, 0);
    if exists i :: 0 <= i < MaxAttempts && Answers(At(inserts, i, Inserted)) {
      var i :| 0 <= i < MaxAttempts && Answers(At(inserts, i, Inserted));
      assert j <= i;
    }
  }

  /** The phase `t` still to run, after the waits `done` already made. */
  function Resumed(done: seq<nat>, t: Tries): Tries
  {
    Tries(t.result, t.attempts, done + t.waits)
  }

  /** One failed attempt moves its wait from the phase still to run to the waits made. */
  lemma ResumedStep(inserts: seq<Insert>, k: nat, last: Option<Raised>, done: seq<nat>)
    requires k < MaxAttempts && !Answers(At(inserts, k, Inserted))
    ensures var o := At(inserts, k, Inserted);
            Resumed(done, RetryFrom(inserts, k, last))
            == Resumed(done + [Delay(o, k)], RetryFrom(inserts, k + 1, Some(o.error)))
  {
    var o := At(inserts, k, Inserted);
    var rest := RetryFrom(inserts, k + 1, Some(o.error));
    assert done + ([Delay(o, k)] + rest.waits) == (done + [Delay(o, k)]) + rest.waits;
  }

  /** `createUserProfile(userId, name, avatarUrl)`. `logged` tells whether the check's error
      was written to the console (an error other than "no row"). */
  method CreateUserProfile(lookup: Lookup, inserts: seq<Insert>)
    returns (result: ProfileResult, attempts: nat, waits: seq<nat>, logged: bool)
    ensures lookup.LookupThrew? ==>
              result == Failure(CaughtError(lookup.error)) && attempts == 0 && waits == [] && !logged
    ensures lookup.Lookup? ==>
              (logged <==> lookup.errorCode.Some? && lookup.errorCode.value != NotFoundCode)
    ensures lookup.Lookup? && lookup.found ==>
              result == Success("Profile already exists") && attempts == 0 && waits == []
    ensures lookup.Lookup? && !lookup.found ==> Tries(result, attempts, waits) == Retry(inserts)
  {
    if lookup.LookupThrew? {
      var e := lookup.error;
      return Failure(if e.ErrorInstance? then e.message else "Unknown error creating profile"), 0, [], false;
    }
    logged := lookup.errorCode.Some? && lookup.errorCode.value != NotFoundCode;
    if lookup.found {
      return Success("Profile already exists"), 0, [], logged;
    }
    var retryCount := 0;
    var error: Option<Raised> := None;
    waits := [];
    while retryCount < MaxAttempts
      invariant retryCount <= MaxAttempts
      invariant Retry(inserts) == Resumed(waits, RetryFrom(inserts, retryCount, error))
      decreases MaxAttempts - retryCount
    {
      var o := At(inserts, retryCount, Inserted);
      if o.Inserted? || (o.Returned? && !Truthy(o.error)) {
        return Success("Profile created successfully"), retryCount + 1, waits, logged;
      }
      ResumedStep(inserts, retryCount, error, waits);
      error := Some(o.error);
      if o.Returned? {
        waits := waits + [1000 * (retryCount + 1)];
        retryCount := retryCount + 1;
      } else {
        retryCount := retryCount + 1;
        waits := waits + [1000 * (retryCount + 1)];
      }
    }
    if error.Some? && Truthy(error.value) {
      result := Failure(if error.value.ErrorInstance? then error.value.message else error.value.text);
    } else {
      result := Failure(GivingUp);
    }
    attempts := retryCount;
  }
}
