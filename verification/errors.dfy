/**
 The error type of the Dioxus CLI (packages/cli/src/error.rs): one closed sum of
 fifteen variants, the user-facing message each variant renders to, and the
 conversions that turn a plain message or a subsystem's own error into a variant.

 The subsystems' error types (std::io, std::fmt, hyper, html_parser,
 tauri_bundler, the hot-patcher, object, handlebars, anyhow) are not part of this
 model: each becomes an opaque record holding only the text its `Display`
 produces.
 */
module Errors {

  /** std::io::Error */
  datatype IoError = IoError(message: string)
  /** std::fmt::Error */
  datatype FmtError = FmtError(message: string)
  /** hyper::http::uri::InvalidUri */
  datatype InvalidUri = InvalidUri(message: string)
  /** tauri_bundler::Error */
  datatype BundlerError = BundlerError(message: string)
  /** crate::build::PatchError */
  datatype PatchError = PatchError(message: string)
  /** object::Error */
  datatype ObjectError = ObjectError(message: string)
  /** handlebars::RenderError */
  datatype RenderError = RenderError(message: string)
  /** anyhow::Error; its `Display` shows the outermost message only */
  datatype AnyhowError = AnyhowError(message: string)
  /** html_parser::Error */
  datatype HtmlParserError = HtmlParserError(message: string)
  /** hyper::Error */
  datatype HyperError = HyperError(message: string)

  /** The CLI's single error type. Exactly one variant is active per value. */
  datatype Error =
    | Unique(text: string)
    | IO(io: IoError)
    | Format(fmt: FmtError)
    | Parse(text: string)
    | Runtime(text: string)
    | Cargo(text: string)
    | InvalidProxy(uri: InvalidUri)
    | ProxySetup(text: string)
    | BundleFailed(bundle: BundlerError)
    | PatchingFailed(patch: PatchError)
    | ObjectReadFailed(obj: ObjectError)
    | CapturedPanic(text: string)
    | TemplateParse(template: RenderError)
    | Network(text: string)
    | Other(other: AnyhowError)
  {
    /** True for the twelve variants whose template is "<prefix>: {0}"; the
        other three render their payload verbatim. */
    predicate Prefixed() {
      !(Unique? || CapturedPanic? || Other?)
    }

    /** True when both values are the same variant, whatever their payloads. */
    predicate SameVariant(that: Error) {
      match (this, that)
      case (Unique(_), Unique(_)) => true
      case (IO(_), IO(_)) => true
      case (Format(_), Format(_)) => true
      case (Parse(_), Parse(_)) => true
      case (Runtime(_), Runtime(_)) => true
      case (Cargo(_), Cargo(_)) => true
      case (InvalidProxy(_), InvalidProxy(_)) => true
      case (ProxySetup(_), ProxySetup(_)) => true
      case (BundleFailed(_), BundleFailed(_)) => true
      case (PatchingFailed(_), PatchingFailed(_)) => true
      case (ObjectReadFailed(_), ObjectReadFailed(_)) => true
      case (CapturedPanic(_), CapturedPanic(_)) => true
      case (TemplateParse(_), TemplateParse(_)) => true
      case (Network(_), Network(_)) => true
      case (Other(_), Other(_)) => true
      case _ => false
    }
  }

  // The fixed prefixes of the twelve prefixed templates.
  const IoPrefix := "I/O Error"
  const FormatPrefix := "Format Error"
  const ParsePrefix := "Format failed"
  const RuntimePrefix := "Runtime Error"
  const CargoPrefix := "Cargo Error"
  const InvalidProxyPrefix := "Invalid proxy URL"
  const ProxySetupPrefix := "Establishing proxy"
  const BundlePrefix := "Bundling project"
  const PatchPrefix := "Performing hotpatch"
  const ObjectPrefix := "Reading object file"
  const TemplatePrefix := "Rendering template error"
  const NetworkPrefix := "Network connectivity error"

  /** The separator every prefixed template puts between prefix and payload. */
  const Separator := ": "

  /** The `Display` text of the variant's payload: the string itself, or the
      wrapped error's own message. */
  function Message(e: Error): string {
    match e
    case Unique(t) => t
    case IO(x) => x.message
    case Format(x) => x.message
    case Parse(t) => t
    case Runtime(t) => t
    case Cargo(t) => t
    case InvalidProxy(x) => x.message
    case ProxySetup(t) => t
    case BundleFailed(x) => x.message
    case PatchingFailed(x) => x.message
    case ObjectReadFailed(x) => x.message
    case CapturedPanic(t) => t
    case TemplateParse(x) => x.message
    case Network(t) => t
    case Other(x) => x.message
  }

  /** The fixed prefix of a prefixed variant's template. */
  function Prefix(e: Error): (p: string)
    requires e.Prefixed()
    ensures ColonFree(p)
  {
    match e
    case IO(_) => IoPrefix
    case Format(_) => FormatPrefix
    case Parse(_) => ParsePrefix
    case Runtime(_) => RuntimePrefix
    case Cargo(_) => CargoPrefix
    case InvalidProxy(_) => InvalidProxyPrefix
    case ProxySetup(_) => ProxySetupPrefix
    case BundleFailed(_) => BundlePrefix
    case PatchingFailed(_) => PatchPrefix
    case ObjectReadFailed(_) => ObjectPrefix
    case TemplateParse(_) => TemplatePrefix
    case Network(_) => NetworkPrefix
  }

  /** No prefix contains the colon that opens the separator. */
  predicate ColonFree(p: string) {
    forall i :: 0 <= i < |p| ==> p[i] != ':'
  }

  /** Fills a "<prefix>: {0}" template. */
  function Fill(prefix: string, payload: string): string {
    prefix + Separator + payload
  }

  /** The `Display` rendering of an error, one template per variant. */
  function Render(e: Error): (s: string)
    ensures !e.Prefixed() ==> s == Message(e)
    ensures e.Prefixed() ==> s == Prefix(e) + Separator + Message(e)
  {
    match e
    case Unique(t) => t
    case IO(x) => Fill(IoPrefix, x.message)
    case Format(x) => Fill(FormatPrefix, x.message)
    case Parse(t) => Fill(ParsePrefix, t)
    case Runtime(t) => Fill(RuntimePrefix, t)
    case Cargo(t) => Fill(CargoPrefix, t)
    case InvalidProxy(x) => Fill(InvalidProxyPrefix, x.message)
    case ProxySetup(t) => Fill(ProxySetupPrefix, t)
    case BundleFailed(x) => Fill(BundlePrefix, x.message)
    case PatchingFailed(x) => Fill(PatchPrefix, x.message)
    case ObjectReadFailed(x) => Fill(ObjectPrefix, x.message)
    case CapturedPanic(t) => t
    case TemplateParse(x) => Fill(TemplatePrefix, x.message)
    case Network(t) => Fill(NetworkPrefix, t)
    case Other(x) => x.message
  }

  // ---------------------------------------------------------------------------
  // Conversions (`From` impls)
  // ---------------------------------------------------------------------------

  /** `From<&str>`: the borrowed text is copied into `Unique`. */
  function FromBorrowed(s: string): (r: Error)
    ensures r.Unique? && r.text == s
    ensures Render(r) == s
  {
    Unique(s)
  }

  /** `From<String>`: the owned text is moved into `Unique`. */
  function FromString(s: string): (r: Error)
    ensures r.Unique? && r.text == s
    ensures Render(r) == s
  {
    Unique(s)
  }

  /** `From<html_parser::Error>`: keeps only the parser's message, as `Parse`. */
  function FromHtmlParser(e: HtmlParserError): (r: Error)
    ensures r.Parse? && Message(r) == e.message
    ensures Render(r) == Fill(ParsePrefix, e.message)
  {
    Parse(e.message)
  }

  /** `From<hyper::Error>`: keeps only hyper's message, as `Runtime` (not `Network`). */
  function FromHyper(e: HyperError): (r: Error)
    ensures r.Runtime? && !r.Network? && Message(r) == e.message
    ensures Render(r) == Fill(RuntimePrefix, e.message)
  {
    Runtime(e.message)
  }

  /** Derived `From<std::io::Error>`. */
  function FromIo(e: IoError): (r: Error)
    ensures r.IO? && r.io == e
    ensures Render(r) == Fill(IoPrefix, e.message)
  {
    IO(e)
  }

  /** Derived `From<std::fmt::Error>`. */
  function FromFmt(e: FmtError): (r: Error)
    ensures r.Format? && r.fmt == e
    ensures Render(r) == Fill(FormatPrefix, e.message)
  {
    Format(e)
  }

  /** Derived `From<hyper::http::uri::InvalidUri>`. */
  function FromInvalidUri(e: InvalidUri): (r: Error)
    ensures r.InvalidProxy? && r.uri == e
    ensures Render(r) == Fill(InvalidProxyPrefix, e.message)
  {
    InvalidProxy(e)
  }

  /** Derived `From<tauri_bundler::Error>`. */
  function FromBundler(e: BundlerError): (r: Error)
    ensures r.BundleFailed? && r.bundle == e
    ensures Render(r) == Fill(BundlePrefix, e.message)
  {
    BundleFailed(e)
  }

  /** Derived `From<crate::build::PatchError>`. */
  function FromPatch(e: PatchError): (r: Error)
    ensures r.PatchingFailed? && r.patch == e
    ensures Render(r) == Fill(PatchPrefix, e.message)
  {
    PatchingFailed(e)
  }

  /** Derived `From<object::Error>`. */
  function FromObject(e: ObjectError): (r: Error)
    ensures r.ObjectReadFailed? && r.obj == e
    ensures Render(r) == Fill(ObjectPrefix, e.message)
  {
    ObjectReadFailed(e)
  }

  /** Derived `From<handlebars::RenderError>`. */
  function FromRender(e: RenderError): (r: Error)
    ensures r.TemplateParse? && r.template == e
    ensures Render(r) == Fill(TemplatePrefix, e.message)
  {
    TemplateParse(e)
  }

  /** Derived `From<anyhow::Error>`: transparent, so it renders as anyhow's own message. */
  function FromAnyhow(e: AnyhowError): (r: Error)
    ensures r.Other? && r.other == e
    ensures Render(r) == e.message
  {
    Other(e)
  }
}
