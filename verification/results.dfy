/**
 The CLI's result alias `Result<T, E = Error>` and the `?` operator.

 `?` on a failed result returns early with `From::from` applied to the error.
 When the inner error type is already `Error`, that conversion is the reflexive
 `From<Error> for Error`, the identity: an error therefore crosses any number of
 call layers whose error type is `Error` unchanged, and a foreign error is
 converted exactly once, at the first layer whose error type is `Error`.

 The alias also lets a layer pick another error type. A layer typed
 `anyhow::Result` turns an `Error` into an `anyhow::Error`, and the next `?`
 back into `Error` wraps that in `Other`: see `AnyhowLayerRewraps`.

 Every layer in `Layers` shares one `Ok` type `T`. In the program each function
 in a call chain has its own `T`; the lemmas still cover such chains once the
 `Ok` types are embedded in one datatype, and `Try` itself already lets the
 rest of the caller produce a different `Ok` type.
 */
module Results {
  import opened Errors

  /** std::result::Result, usable with Dafny's `:-`. */
  datatype Result<T, E> = Ok(value: T) | Err(error: E) {
    predicate IsFailure() {
      Err?
    }

    function PropagateFailure<U>(): (r: Result<U, E>)
      requires Err?
    {
      Err(error)
    }

    function Extract(): T
      requires Ok?
    {
      value
    }
  }

  /** The alias with its error parameter at the default, `Error`. */
  type CliResult<T> = Result<T, Error>

  /** The reflexive `From<Error> for Error`. */
  function Reflexive(e: Error): Error {
    e
  }

  /** `r?` inside a function returning `CliResult`, with `from` the `From`
      conversion of the inner error type: an `Ok` value is unwrapped and passed
      to the rest of the function `k`; an error returns early, converted. */
  function Try<T, F, U>(r: Result<T, F>, from: F -> Error, k: T -> CliResult<U>): CliResult<U>
  {
    match r
    case Ok(v) => k(v)
    case Err(f) => Err(from(f))
  }

  /** A caller layer that does `inner?` and then continues with `k`. */
  function Layer<T>(inner: CliResult<T>, k: T -> CliResult<T>): CliResult<T> {
    Try(inner, Reflexive, k)
  }

  /** `layers` nested call layers above `inner`, innermost first. */
  function Layers<T>(inner: CliResult<T>, layers: seq<T -> CliResult<T>>): CliResult<T>
    decreases |layers|
  {
    if |layers| == 0 then inner
    else Layer(Layers(inner, layers[..|layers| - 1]), layers[|layers| - 1])
  }

  /** An error returned by the innermost call reaches the top unchanged,
      through any number of `?` layers typed `CliResult`: same variant, same payload. */
  lemma {:induction false} LayersKeepError<T>(e: Error, layers: seq<T -> CliResult<T>>)
    ensures Layers(Err(e), layers) == Err(e)
    decreases |layers|
  {
    if |layers| > 0 {
      LayersKeepError(e, layers[..|layers| - 1]);
    }
  }

  /** In particular such layers never re-wrap the error into `Other`, and the message
      the top level prints is the one the innermost call produced. */
  lemma {:induction false} LayersKeepRendering<T>(e: Error, layers: seq<T -> CliResult<T>>)
    ensures Layers(Err(e), layers).Err?
    ensures Layers(Err(e), layers).error.Other? <==> e.Other?
    ensures Render(Layers(Err(e), layers).error) == Render(e)
  {
    LayersKeepError(e, layers);
  }

  /** A foreign error met by `?` at the first layer is converted once, by its
      own `From` impl, and then carried unchanged through the layers above. */
  lemma {:induction false} ForeignConvertedOnce<T, F>(f: F, from: F -> Error, k: T -> CliResult<T>, layers: seq<T -> CliResult<T>>)
    ensures Layers(Try(Err(f), from, k), layers) == Err(from(f))
  {
    LayersKeepError(from(f), layers);
  }

  /** `?` on a failed hyper call yields `Runtime` with hyper's message, whatever
      the layers above do. */
  lemma {:induction false} HyperErrorSurfacesAsRuntime<T>(h: HyperError, k: T -> CliResult<T>, layers: seq<T -> CliResult<T>>)
    ensures Layers(Try(Err(h), FromHyper, k), layers) == Err(Runtime(h.message))
    ensures Render(Layers(Try(Err(h), FromHyper, k), layers).error) == Fill(RuntimePrefix, h.message)
  {
    ForeignConvertedOnce(h, FromHyper, k, layers);
  }

  /** `?` on a failed html_parser call yields `Parse` with the parser's message. */
  lemma {:induction false} HtmlErrorSurfacesAsParse<T>(h: HtmlParserError, k: T -> CliResult<T>, layers: seq<T -> CliResult<T>>)
    ensures Layers(Try(Err(h), FromHtmlParser, k), layers) == Err(Parse(h.message))
    ensures Render(Layers(Try(Err(h), FromHtmlParser, k), layers).error) == Fill(ParsePrefix, h.message)
  {
    ForeignConvertedOnce(h, FromHtmlParser, k, layers);
  }

  /** One layer is exactly Dafny's `:-`: the early return of `?` is
      `PropagateFailure`, the unwrapping is `Extract`. */
  lemma LayerIsElephant<T>(inner: CliResult<T>, k: T -> CliResult<T>)
    ensures Layer(inner, k) == (var v :- inner; k(v))
  {
  }

  /** Layers may equally be peeled from the inside: the innermost `?` runs
      first and the layers above see only its outcome. */
  lemma {:induction false} LayersPeelInnermost<T>(inner: CliResult<T>, k: T -> CliResult<T>, layers: seq<T -> CliResult<T>>)
    ensures Layers(inner, [k] + layers) == Layers((var v :- inner; k(v)), layers)
    decreases |layers|
  {
    if |layers| > 0 {
      var n := |layers|;
      assert ([k] + layers)[..n] == [k] + layers[..n - 1];
      assert ([k] + layers)[n] == layers[n - 1];
      LayersPeelInnermost(inner, k, layers[..n - 1]);
    }
  }

  /** anyhow's `From<E: std::error::Error>`: an `Error` becomes an
      `anyhow::Error` whose display is the `Error`'s own rendering. */
  function IntoAnyhow(e: Error): AnyhowError {
    AnyhowError(Render(e))
  }

  /** Passing an `Error` through a layer typed `anyhow::Result` and back through
      `?` keeps its text but re-wraps it into `Other`. An error that already was
      `Other` is wrapped a second time; the model cannot see that second
      wrapping, because an anyhow error is only its text here. */
  lemma {:induction false} AnyhowLayerRewraps<T>(e: Error, k: T -> CliResult<T>, layers: seq<T -> CliResult<T>>)
    ensures Layers(Try(Err(IntoAnyhow(e)), FromAnyhow, k), layers) == Err(Other(AnyhowError(Render(e))))
    ensures Render(Layers(Try(Err(IntoAnyhow(e)), FromAnyhow, k), layers).error) == Render(e)
    ensures !e.Other? ==> Layers(Try(Err(IntoAnyhow(e)), FromAnyhow, k), layers) != Err(e)
  {
    ForeignConvertedOnce(IntoAnyhow(e), FromAnyhow, k, layers);
  }
}
