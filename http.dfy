/**
 * What a request handler decides: either it answers at once (a validation
 * error, an unknown id) or it calls the service with the arguments it parsed.
 * Controllers collect validation messages in a fixed order and answer 400 with
 * the messages joined by a space.
 */
module Http {
  import opened JsValues

  /** The status and, for an error, the `{ message }` body of a response. */
  datatype Reply =
    | ErrorReply(status: int, message: string)
    | JsonReply(status: int)
    | NoContent

  /**
   * What the service call of a handler comes to: it saved (or found) the
   * row; it found no matching row; it threw an error carrying a
   * `statusCode` and a message; or it threw any other error, with the given
   * PostgreSQL error code ("" when there is none).
   */
  datatype Outcome = Saved | NotFound | Rejected(status: int, message: string) | Threw(code: string)

  /** PostgreSQL's `unique_violation`. */
  const UniqueViolation: string := "23505"

  const InvalidWallet: string := "Carteira inválida."
  const InvalidId: string := "ID inválido."

  /**
   * `Number(value)` accepted only when it is a positive integer; any other
   * value gives the error message. Every controller has its own copy of
   * this check (`parseWalletId`, `parseId`, and the inline id test of the
   * transaction handlers).
   */
  function ParsePositiveId(js: Engine, value: JsValue, message: string): (r: Result<int, string>)
    ensures r.Ok? <==> IsPositiveInteger(ToNumber(js, value))
    ensures r.Ok? ==> r.value > 0 && ToNumber(js, value) == Finite(r.value as real)
    ensures r.Err? ==> r.error == message
  {
    match PositiveId(js, value)
    case Some(id) => Ok(id)
    case None => Err(message)
  }

  /** `parseWalletId(value)`. */
  function ParseWalletId(js: Engine, value: JsValue): (r: Result<int, string>)
    ensures r.Ok? <==> IsPositiveInteger(ToNumber(js, value))
    ensures r.Ok? ==> r.value > 0 && ToNumber(js, value) == Finite(r.value as real)
    ensures r.Err? ==> r.error == InvalidWallet
  {
    ParsePositiveId(js, value, InvalidWallet)
  }

  /** `parseId(param)`. */
  function ParseId(js: Engine, param: JsValue): (r: Result<int, string>)
    ensures r.Ok? <==> IsPositiveInteger(ToNumber(js, param))
    ensures r.Ok? ==> r.value > 0 && ToNumber(js, param) == Finite(r.value as real)
    ensures r.Err? ==> r.error == InvalidId
  {
    ParsePositiveId(js, param, InvalidId)
  }

  /** A number is accepted as an id exactly when it is a positive integer, and it is the id. */
  lemma ParseIdOfNumber(js: Engine, n: int, message: string)
    ensures ParsePositiveId(js, Num(Finite(n as real)), message) == if n > 0 then Ok(n) else Err(message)
  {
    assert (n as real).Floor == n;
  }

  /**
   * A route parameter of at most 15 digits is the id it spells when that is
   * positive (so `"007"` is the id 7 and `"0"` is refused).
   */
  lemma ParseIdOfDigits(js: Engine, s: string, message: string)
    requires IsDigitString(s) && |s| <= MaxExactDigits
    ensures ParsePositiveId(js, Str(s), message) == if DigitsValue(s) > 0 then Ok(DigitsValue(s)) else Err(message)
  {
    ExactDigitRun(js, s);
    ParseIdOfNumber(js, DigitsValue(s), message);
  }

  /** `req.body ?? {}`. */
  function BodyOrEmpty(body: JsValue): JsValue
  {
    Nullish(body, Obj(map[]))
  }

  /** The outcome of the checks a handler makes before it calls the service. */
  datatype Step<+A> = Respond(reply: Reply) | Proceed(args: A)

  /** `if (!ok) errors.push(m)`: what one check adds to the list. */
  function Push(ok: bool, m: string): seq<string>
  {
    if ok then [] else [m]
  }

  /**
   * The messages of the checks that fail, in check order: the list left by
   * one `Push` per check, the last check last.
   */
  function Collect(oks: seq<bool>, msgs: seq<string>): (errors: seq<string>)
    requires |oks| == |msgs|
    ensures |errors| <= |msgs|
  {
    if oks == [] then []
    else Collect(oks[..|oks| - 1], msgs[..|oks| - 1]) + Push(oks[|oks| - 1], msgs[|oks| - 1])
  }

  predicate Distinct(msgs: seq<string>)
  {
    forall i, j :: 0 <= i < j < |msgs| ==> msgs[i] != msgs[j]
  }

  /** With distinct messages, a message is reported exactly when its check fails. */
  lemma {:induction false} CollectMember(oks: seq<bool>, msgs: seq<string>, i: int)
    requires |oks| == |msgs| && Distinct(msgs) && 0 <= i < |msgs|
    ensures msgs[i] in Collect(oks, msgs) <==> !oks[i]
  {
    var n := |oks| - 1;
    var front := Collect(oks[..n], msgs[..n]);
    assert Collect(oks, msgs) == front + Push(oks[n], msgs[n]);
    if i == n {
      CollectFrom(oks[..n], msgs[..n], msgs[n]);
    } else {
      assert Distinct(msgs[..n]);
      CollectMember(oks[..n], msgs[..n], i);
      assert msgs[n] != msgs[i];
    }
  }

  /** Every reported message is one of the messages. */
  lemma {:induction false} CollectFrom(oks: seq<bool>, msgs: seq<string>, m: string)
    requires |oks| == |msgs| && m !in msgs
    ensures m !in Collect(oks, msgs)
  {
    if oks != [] {
      var n := |oks| - 1;
      assert m !in msgs[..n];
      CollectFrom(oks[..n], msgs[..n], m);
    }
  }

  /** The messages come in check order. */
  lemma {:induction false} CollectOrder(oks: seq<bool>, msgs: seq<string>)
    requires |oks| == |msgs|
    ensures IsSubsequence(Collect(oks, msgs), msgs)
  {
    if oks != [] {
      var n := |oks| - 1;
      CollectOrder(oks[..n], msgs[..n]);
      var last := Push(oks[n], msgs[n]);
      assert IsSubsequence(last, [msgs[n]]) by {
        if !oks[n] {
          assert last[1..] == [] && [msgs[n]][1..] == [];
        }
      }
      SubsequenceAppend(Collect(oks[..n], msgs[..n]), msgs[..n], last, [msgs[n]]);
      assert msgs[..n] + [msgs[n]] == msgs;
    }
  }

  /** No message at all exactly when every check holds. */
  lemma {:induction false} CollectEmpty(oks: seq<bool>, msgs: seq<string>)
    requires |oks| == |msgs|
    ensures Collect(oks, msgs) == [] <==> forall i :: 0 <= i < |oks| ==> oks[i]
  {
    if oks != [] {
      var n := |oks| - 1;
      CollectEmpty(oks[..n], msgs[..n]);
      assert forall i :: 0 <= i < n ==> oks[..n][i] == oks[i];
    }
  }

  /**
   * Five checks with distinct messages: each message is reported exactly when
   * its check fails, in check order, and none exactly when all hold.
   */
  lemma CollectFive(oks: seq<bool>, msgs: seq<string>)
    requires |oks| == 5 && |msgs| == 5 && Distinct(msgs)
    ensures var errors := Collect(oks, msgs);
      (msgs[0] in errors <==> !oks[0]) && (msgs[1] in errors <==> !oks[1]) &&
      (msgs[2] in errors <==> !oks[2]) && (msgs[3] in errors <==> !oks[3]) &&
      (msgs[4] in errors <==> !oks[4]) &&
      IsSubsequence(errors, msgs) &&
      (errors == [] <==> oks[0] && oks[1] && oks[2] && oks[3] && oks[4])
  {
    CollectMember(oks, msgs, 0);
    CollectMember(oks, msgs, 1);
    CollectMember(oks, msgs, 2);
    CollectMember(oks, msgs, 3);
    CollectMember(oks, msgs, 4);
    CollectOrder(oks, msgs);
    CollectEmpty(oks, msgs);
  }

  /**
   * Any number of checks with distinct messages: each message is reported
   * exactly when its check fails, in check order, and none exactly when all
   * hold.
   */
  lemma CollectSpec(oks: seq<bool>, msgs: seq<string>)
    requires |oks| == |msgs| && Distinct(msgs)
    ensures forall i :: 0 <= i < |msgs| ==> (msgs[i] in Collect(oks, msgs) <==> !oks[i])
    ensures IsSubsequence(Collect(oks, msgs), msgs)
    ensures Collect(oks, msgs) == [] <==> forall i :: 0 <= i < |oks| ==> oks[i]
  {
    forall i | 0 <= i < |msgs| ensures msgs[i] in Collect(oks, msgs) <==> !oks[i] {
      CollectMember(oks, msgs, i);
    }
    CollectOrder(oks, msgs);
    CollectEmpty(oks, msgs);
  }

  /** `res.status(400).json({ message: errors.join(' ') })`. */
  function ValidationReply(errors: seq<string>): Reply
  {
    ErrorReply(400, Join(errors, " "))
  }
}
