/**
 * Shutting the API server down (internal/api/server.go): close the Echo
 * server, then the tracer's closer, and join whatever errors they return.
 */
module ApiServer {
  import opened Optional

  /** A non-nil error: one returned by a closer, or one built by fmt.Errorf. */
  datatype ErrorValue = Returned(text: string) | Formatted(text: string)

  /** addError: the first error is kept as it is; later ones are joined as "<all>; <err>". */
  function AddError(allErrors: Option<ErrorValue>, err: ErrorValue): (r: Option<ErrorValue>)
    ensures r.Some?
    ensures allErrors.None? ==> r.value == err
    ensures allErrors.Some? ==> r.value.Formatted? && r.value.text == allErrors.value.text + "; " + err.text
  {
    if allErrors.None? then Some(err) else Some(Formatted(allErrors.value.text + "; " + err.text))
  }

  /** Joining n error texts in order, as repeated addError calls do. */
  function Joined(texts: seq<string>): (r: string)
    requires texts != []
    decreases |texts|
  {
    if |texts| == 1 then texts[0] else Joined(texts[..|texts| - 1]) + "; " + texts[|texts| - 1]
  }

  /** Folding addError over some errors gives their texts joined in order, and no error for none. */
  lemma {:induction false} AddErrorFold(errs: seq<ErrorValue>)
    ensures FoldErrors(errs).None? <==> errs == []
    ensures errs != [] ==> FoldErrors(errs).value.text == Joined(TextsOf(errs))
    ensures |errs| == 1 ==> FoldErrors(errs) == Some(errs[0])
    decreases |errs|
  {
    if errs != [] {
      AddErrorFold(errs[..|errs| - 1]);
      assert TextsOf(errs)[..|errs| - 1] == TextsOf(errs[..|errs| - 1]);
    }
  }

  function TextsOf(errs: seq<ErrorValue>): (ts: seq<string>)
    ensures |ts| == |errs| && forall i :: 0 <= i < |errs| ==> ts[i] == errs[i].text
  {
    seq(|errs|, i requires 0 <= i < |errs| => errs[i].text)
  }

  function FoldErrors(errs: seq<ErrorValue>): Option<ErrorValue>
    decreases |errs|
  {
    if errs == [] then None else AddError(FoldErrors(errs[..|errs| - 1]), errs[|errs| - 1])
  }

  /** The non-nil outcomes among some close results, in order. */
  function Failures(outcomes: seq<Option<ErrorValue>>): (r: seq<ErrorValue>)
    ensures |r| <= |outcomes|
    ensures forall e :: e in r <==> Some(e) in outcomes
    decreases |outcomes|
  {
    if outcomes == [] then []
    else
      var prefix := Failures(outcomes[..|outcomes| - 1]);
      var last := outcomes[|outcomes| - 1];
      if last.Some? then prefix + [last.value] else prefix
  }

  lemma FailuresOfTwo(first: Option<ErrorValue>, second: Option<ErrorValue>)
    ensures Failures([first, second])
      == (if first.Some? then [first.value] else []) + (if second.Some? then [second.value] else [])
  {
    assert [first, second][..1] == [first];
    assert [first][..0] == [];
    assert Failures([first]) == (if first.Some? then [first.value] else []);
  }

  /** Folding the failures of two close results is adding the first one, then the second one. */
  lemma FoldFailuresOfTwo(first: Option<ErrorValue>, second: Option<ErrorValue>)
    ensures FoldErrors(Failures([first, second]))
      == (var afterFirst := if first.Some? then AddError(None, first.value) else None;
          if second.Some? then AddError(afterFirst, second.value) else afterFirst)
  {
    FailuresOfTwo(first, second);
    var all := Failures([first, second]);
    if |all| == 2 {
      assert all[..1] == [all[0]] && all[..1][..0] == [];
      assert FoldErrors(all[..1]) == Some(all[0]);
    } else if |all| == 1 {
      assert all[..0] == [];
    }
  }

  /** Something Close can be called on (the Echo server, the tracer's io.Closer). */
  class Closer {
    ghost var closes: nat
    const failure: Option<ErrorValue>

    constructor (failure: Option<ErrorValue>)
      ensures this.failure == failure && closes == 0
    {
      this.failure := failure;
      closes := 0;
    }

    method Close() returns (err: Option<ErrorValue>)
      modifies this`closes
      ensures closes == old(closes) + 1 && err == failure
    {
      closes := closes + 1;
      err := failure;
    }
  }

  class Server {
    const echo: Closer
    const closeJaeger: Closer

    constructor (echo: Closer, closeJaeger: Closer)
      ensures this.echo == echo && this.closeJaeger == closeJaeger
    {
      this.echo := echo;
      this.closeJaeger := closeJaeger;
    }

    /**
     * Close: both closers are closed whatever the first returns; the result
     * is nil iff both succeed, and joins the Echo error before the tracer's.
     */
    method Close() returns (allErrors: Option<ErrorValue>)
      requires echo != closeJaeger
      modifies echo`closes, closeJaeger`closes
      ensures echo.closes == old(echo.closes) + 1 && closeJaeger.closes == old(closeJaeger.closes) + 1
      ensures allErrors == FoldErrors(Failures([echo.failure, closeJaeger.failure]))
      ensures allErrors.None? <==> echo.failure.None? && closeJaeger.failure.None?
      ensures echo.failure.Some? && closeJaeger.failure.Some? ==>
        allErrors == Some(Formatted(echo.failure.value.text + "; " + closeJaeger.failure.value.text))
      ensures echo.failure.Some? != closeJaeger.failure.Some? ==>
        allErrors == (if echo.failure.Some? then echo.failure else closeJaeger.failure)
    {
      allErrors := None;
      var err := echo.Close();
      if err.Some? {
        allErrors := AddError(allErrors, err.value);
      }
      err := closeJaeger.Close();
      if err.Some? {
        allErrors := AddError(allErrors, err.value);
      }
      FoldFailuresOfTwo(echo.failure, closeJaeger.failure);
    }
  }
}
