# Dioxus CLI error type, in Dafny

A model of the Dioxus command-line tool's single error type
(`packages/cli/src/error.rs`) and the results that carry it. It has three parts:

- `Errors` (errors.dfy) holds the closed enum `Error` with its fifteen variants. It also holds
  the user-facing message each variant renders to (its `thiserror` display template)
  and every `From` conversion into it. Those are the four written out in the file
  (`&str`, `String`, `html_parser::Error`, `hyper::Error`) and the eight that
  `#[from]` derives.
- `Rendering` (rendering.dfy) asks what a rendered message reveals. Each of the twelve prefixed
  templates reads "<prefix>: <payload message>". No prefix contains a colon, so
  the rendering of a prefixed variant determines both the variant and its payload's
  message. `Recover` parses a rendering back and witnesses this. `Unique`, `CapturedPanic`
  and the transparent `Other` print their payload verbatim.
- `Results` (results.dfy) models the alias `Result<T, E = Error>` and the `?` operator.
  `?` converts an error with its `From` impl. For `Error` itself that impl is the
  reflexive identity. So an error crosses any number of call layers whose error type
  is `Error` unchanged, and a foreign error is converted exactly once. A layer whose
  error type is `anyhow::Error` is different: the next `?` re-wraps the error into
  `Other`. The layer lemmas give every layer the same `Ok` type. A real call chain,
  where each function has its own `Ok` type, is covered once those types are
  embedded in one datatype.

Each foreign error type becomes an opaque record holding only the text its
`Display` produces. The code for those types is not part of this model.

## Model

| member | source | states |
|---|---|---|
| Errors.Render | packages/cli/src/error.rs:9-52 | `Unique`, `CapturedPanic` and `Other` render as their payload message alone. Each other variant renders as its own fixed prefix, then ": ", then the payload message. |
| Errors.Prefix | packages/cli/src/error.rs:12-49 | The fixed prefix of each of the twelve prefixed templates contains no colon. |
| Errors.FromBorrowed | packages/cli/src/error.rs:55-59 | A borrowed string converts to `Unique` holding that text. It renders back to exactly that text. |
| Errors.FromString | packages/cli/src/error.rs:61-65 | An owned string converts to `Unique` holding that text. It renders back to exactly that text. |
| Errors.FromHtmlParser | packages/cli/src/error.rs:67-71 | An html_parser error converts to `Parse` carrying the parser's message. It renders as "Format failed: " followed by that message. |
| Errors.FromHyper | packages/cli/src/error.rs:73-77 | A hyper error converts to `Runtime`, not `Network`, carrying hyper's message. It renders as "Runtime Error: " followed by that message. |
| Errors.FromIo | packages/cli/src/error.rs:12-13 | An I/O error is wrapped unchanged in `IO`. It renders as "I/O Error: " followed by its message. |
| Errors.FromFmt | packages/cli/src/error.rs:15-16 | A formatting error is wrapped unchanged in `Format`. It renders as "Format Error: " followed by its message. |
| Errors.FromInvalidUri | packages/cli/src/error.rs:27-28 | An invalid-URI error is wrapped unchanged in `InvalidProxy`. It renders as "Invalid proxy URL: " followed by its message. |
| Errors.FromBundler | packages/cli/src/error.rs:33-34 | A bundler error is wrapped unchanged in `BundleFailed`. It renders as "Bundling project: " followed by its message. |
| Errors.FromPatch | packages/cli/src/error.rs:36-37 | A patch error is wrapped unchanged in `PatchingFailed`. It renders as "Performing hotpatch: " followed by its message. |
| Errors.FromObject | packages/cli/src/error.rs:39-40 | An object-file error is wrapped unchanged in `ObjectReadFailed`. It renders as "Reading object file: " followed by its message. |
| Errors.FromRender | packages/cli/src/error.rs:45-46 | A template render error is wrapped unchanged in `TemplateParse`. It renders as "Rendering template error: " followed by its message. |
| Errors.FromAnyhow | packages/cli/src/error.rs:51-52 | An anyhow error is wrapped unchanged in `Other`. It renders transparently as its own message. |
| Rendering.Recover | packages/cli/src/error.rs:12-49 | Whenever a string is read back as an error, that error is a prefixed variant and renders to exactly that string. |
| Rendering.RecoverRender | packages/cli/src/error.rs:12-49 | Reading back the rendering of any prefixed error gives that same error: same variant, same payload message. |
| Rendering.RecoverFrom | packages/cli/src/error.rs:12-49 | Whatever prefixed templates are tried, any error read back from a string renders to exactly that string. |
| Rendering.RecoverFromRender | packages/cli/src/error.rs:12-49 | Reading back the rendering of a prefixed error against any template list that includes its variant yields that very error. |
| Rendering.HeaderDetermines | packages/cli/src/error.rs:12-49 | A template filled with a colon-free prefix determines both the prefix and the payload message. |
| Rendering.PrefixedRenderInjective | packages/cli/src/error.rs:12-49 | Two prefixed errors render equally if and only if they are the same variant with the same payload message. |
| Rendering.PrefixesDistinct | packages/cli/src/error.rs:12-49 | Two prefixed variants share a prefix if and only if they are the same variant. For example, `Format` and `Parse` differ. |
| Rendering.RenderInjectiveWithinVariant | packages/cli/src/error.rs:9-52 | Within any one variant, two errors render equally if and only if their payload messages are equal. |
| Rendering.MessageIsSuffix | packages/cli/src/error.rs:9-52 | The payload's message always ends the rendering. It is the whole rendering exactly when the variant is `Unique`, `CapturedPanic` or `Other`. |
| Rendering.VerbatimVariants | packages/cli/src/error.rs:42-52 | `Unique(s)` and `CapturedPanic(s)` both render as `s`. `Other` renders as the wrapped error's own message. |
| Rendering.UniqueImpersonates | packages/cli/src/error.rs:9-10 | Every prefixed error has a different `Unique` error with the same rendering. So a message alone does not identify the variant. |
| Results.LayersKeepError | packages/cli/src/error.rs:4 | An error returned by the innermost call comes out of any number of `?` layers typed `Result<_, Error>` unchanged. |
| Results.LayersKeepRendering | packages/cli/src/error.rs:4 | After any number of layers typed `Result<_, Error>`, the result is still an error. It is `Other` only if the original was, and it renders the same. |
| Results.ForeignConvertedOnce | packages/cli/src/error.rs:4 | A foreign error that meets `?` is converted by its `From` impl once. It then reaches the top unchanged. |
| Results.HyperErrorSurfacesAsRuntime | packages/cli/src/error.rs:73-77 | A failed hyper call under `?` surfaces at the top as `Runtime` with hyper's message, rendered "Runtime Error: " followed by that message. |
| Results.LayerIsElephant | packages/cli/src/error.rs:4 | One `?` layer over a `Result<_, Error>` behaves exactly like Dafny's `:-`. An error returns early unchanged, and an `Ok` value goes to the rest of the caller. |
| Results.LayersPeelInnermost | packages/cli/src/error.rs:4 | A stack of `?` layers equals running the innermost `?` first and then the layers above it on that outcome. |
| Results.AnyhowLayerRewraps | packages/cli/src/error.rs:51-52 | An `Error` that goes through an `anyhow::Result` layer and back through `?` becomes `Other` with the same rendering. An error that already was `Other` is wrapped a second time, which the model cannot see because an anyhow error is only its text. |
| Results.HtmlErrorSurfacesAsParse | packages/cli/src/error.rs:67-71 | A failed html_parser call under `?` surfaces at the top as `Parse`, rendered "Format failed: " followed by the parser's message. |

## Left out

- Foreign error types (`std::io::Error`, `std::fmt::Error`, `InvalidUri`, `tauri_bundler::Error`, `PatchError`, `object::Error`, `handlebars::RenderError`, `anyhow::Error`, `html_parser::Error`, `hyper::Error`): only their display text is modelled. Their code is not part of this model.
- Errors.FromFmt: `std::fmt::Error` always displays the same fixed standard-library text. The model treats that text as an arbitrary message.
- Errors.FromAnyhow: anyhow's cause chain and its alternate `{:#}` form are not modelled. The transparent display used here shows only the outermost message, and that is the part modelled.
- `Debug` formatting, `Error::source()` and backtraces come from the `thiserror` derive and the standard library. They are not modelled.
- The panic-capture boundary that produces `CapturedPanic` is not in `error.rs` and relies on unwinding. Only the variant and its rendering are modelled.
- Process exit and exit status are not in `error.rs`.
- `Send`/`Sync` transferability of error values is a concurrency property and has no sequential behaviour to model.
- `&str` and `String` are both `string` here. `FromBorrowed` and `FromString` differ only in the ownership of the input.
- Rendering.RecoverRender: a wrapped foreign error is only its display text here. So "the same error" means the same variant with the same payload message. Two foreign errors that differ beyond their text, such as I/O errors of different kinds with one message, count as one.
- Rendering.PrefixedRenderInjective: equality of wrapped errors in the model means equal display text, for the reason given under `Rendering.RecoverRender`.
- Rendering.RenderInjectiveWithinVariant: equality of wrapped errors in the model means equal display text, for the reason given under `Rendering.RecoverRender`.
- Results.LayersKeepError: this holds only for layers whose error type is `Error`. A round trip through an `anyhow::Result` layer re-wraps the error into `Other`. `Results.AnyhowLayerRewraps` states that case, using `Results.IntoAnyhow` to model anyhow's own conversion by its display text.
- Results.AnyhowLayerRewraps: an error that already was `Other` comes back as `Other` wrapping a new anyhow error that holds the first `Other`. That is a second `Other` layer with the same text. The model treats an anyhow error as its text alone, so it cannot tell the two layers apart and calls the result equal to the original.
