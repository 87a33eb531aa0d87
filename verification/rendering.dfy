/**
 What the rendered message of an error reveals about it.

 Every prefixed template ends in the payload's own message, and the twelve
 prefixes are chosen so that none of "<prefix>: " starts another: the
 rendering of a prefixed variant therefore determines both the variant and its
 payload's message. `Recover` is the inverse that witnesses this. The three
 unprefixed variants give no such guarantee: their rendering is the bare
 payload text.

 A wrapped foreign error is modelled by its display text alone, so "the same
 error" below means the same variant with the same payload message; two foreign
 errors that differ beyond their text are not told apart here.
 */
module Rendering {
  import opened Errors

  datatype Option<T> = None | Some(value: T)

  /** The text after "<prefix>: " when `s` starts with it. */
  function After(s: string, prefix: string): (r: Option<string>)
    ensures r.Some? ==> s == Fill(prefix, r.value)
  {
    var head := Fill(prefix, "");
    if head <= s then
      assert s == head + s[|head|..];
      Some(s[|head|..])
    else
      None
  }

  /** The same variant as `e`, carrying `m` instead of its payload. */
  function WithMessage(e: Error, m: string): (r: Error)
    requires e.Prefixed()
    ensures r.Prefixed() && r.SameVariant(e) && Message(r) == m
  {
    match e
    case IO(_) => IO(IoError(m))
    case Format(_) => Format(FmtError(m))
    case Parse(_) => Parse(m)
    case Runtime(_) => Runtime(m)
    case Cargo(_) => Cargo(m)
    case InvalidProxy(_) => InvalidProxy(InvalidUri(m))
    case ProxySetup(_) => ProxySetup(m)
    case BundleFailed(_) => BundleFailed(BundlerError(m))
    case PatchingFailed(_) => PatchingFailed(PatchError(m))
    case ObjectReadFailed(_) => ObjectReadFailed(ObjectError(m))
    case TemplateParse(_) => TemplateParse(RenderError(m))
    case Network(_) => Network(m)
  }

  /** One representative of each prefixed variant, in declaration order. */
  const Templates: seq<Error> := [
    IO(IoError("")), Format(FmtError("")), Parse(""), Runtime(""), Cargo(""),
    InvalidProxy(InvalidUri("")), ProxySetup(""), BundleFailed(BundlerError("")),
    PatchingFailed(PatchError("")), ObjectReadFailed(ObjectError("")),
    TemplateParse(RenderError("")), Network("")
  ]

  predicate AllPrefixed(ts: seq<Error>) {
    forall i :: 0 <= i < |ts| ==> ts[i].Prefixed()
  }

  /** Tries the templates `ts` in order and reads `s` back under the first
      prefix that starts it. */
  function RecoverFrom(s: string, ts: seq<Error>): (r: Option<Error>)
    requires AllPrefixed(ts)
    ensures r.Some? ==> r.value.Prefixed() && Render(r.value) == s
    decreases |ts|
  {
    if |ts| == 0 then None
    else
      var rest := After(s, Prefix(ts[0]));
      if rest.Some? then Some(WithMessage(ts[0], rest.value))
      else RecoverFrom(s, ts[1..])
  }

  /** Reads a rendered message back into the prefixed variant it came from,
      or None when it starts with none of the twelve prefixes. */
  function Recover(s: string): (r: Option<Error>)
    ensures r.Some? ==> r.value.Prefixed() && Render(r.value) == s
  {
    RecoverFrom(s, Templates)
  }

  lemma AfterOwnPrefix(p: string, m: string)
    ensures After(Fill(p, m), p) == Some(m)
  {
  }

  /** A filled template with a colon-free prefix determines prefix and payload:
      the separator's colon is the first colon, at index |p| of "<p>: <m>". */
  lemma {:induction false} HeaderDetermines(p: string, m: string, q: string, n: string)
    requires ColonFree(p) && ColonFree(q)
    requires Fill(q, n) == Fill(p, m)
    ensures p == q && m == n
  {
    var s := Fill(p, m);
    assert s[|p|] == ':';
    assert s[|q|] == Fill(q, n)[|q|] == ':';
    assert |p| == |q|;
    assert q == Fill(q, n)[..|q|] == s[..|q|] == p;
    assert n == Fill(q, n)[|q| + 2..] == s[|p| + 2..] == m;
  }

  /** The twelve prefixes are pairwise distinct (e.g. `Format` says "Format Error"
      where `Parse` says "Format failed"). */
  lemma PrefixesDistinct(a: Error, b: Error)
    requires a.Prefixed() && b.Prefixed()
    ensures Prefix(a) == Prefix(b) <==> a.SameVariant(b)
  {
  }

  /** An error is fixed by its variant and its payload's message. */
  lemma VariantAndMessageDetermine(a: Error, b: Error)
    requires a.SameVariant(b) && Message(a) == Message(b)
    ensures a == b
  {
  }

  /** Reading back the rendering of prefixed `e` against templates that include
      its variant yields `e`: no other prefix starts it, its own prefix leaves
      exactly its payload. */
  lemma {:induction false} RecoverFromRender(e: Error, ts: seq<Error>, k: nat)
    requires e.Prefixed() && AllPrefixed(ts)
    requires k < |ts| && ts[k].SameVariant(e)
    ensures RecoverFrom(Render(e), ts) == Some(e)
    decreases |ts|
  {
    var rest := After(Render(e), Prefix(ts[0]));
    if rest.Some? {
      HeaderDetermines(Prefix(e), Message(e), Prefix(ts[0]), rest.value);
      PrefixesDistinct(e, ts[0]);
      VariantAndMessageDetermine(WithMessage(ts[0], rest.value), e);
    } else if k == 0 {
      PrefixesDistinct(e, ts[0]);
      AfterOwnPrefix(Prefix(e), Message(e));
      assert false;
    } else {
      RecoverFromRender(e, ts[1..], k - 1);
    }
  }

  /** Reading back the rendering of a prefixed variant gives that very variant
      and payload message: the template's prefix names the variant, the rest is
      the payload's message. */
  lemma RecoverRender(e: Error)
    requires e.Prefixed()
    ensures Recover(Render(e)) == Some(e)
  {
    var k: nat := match e
      case IO(_) => 0
      case Format(_) => 1
      case Parse(_) => 2
      case Runtime(_) => 3
      case Cargo(_) => 4
      case InvalidProxy(_) => 5
      case ProxySetup(_) => 6
      case BundleFailed(_) => 7
      case PatchingFailed(_) => 8
      case ObjectReadFailed(_) => 9
      case TemplateParse(_) => 10
      case Network(_) => 11;
    RecoverFromRender(e, Templates, k);
  }

  /** Two prefixed errors with the same rendering are the same variant with the
      same payload message: the twelve prefixes are told apart, and so are the
      messages behind them. */
  lemma PrefixedRenderInjective(a: Error, b: Error)
    requires a.Prefixed() && b.Prefixed()
    ensures Render(a) == Render(b) <==> a == b
  {
    RecoverRender(a);
    RecoverRender(b);
  }

  /** Within one variant, equal renderings mean equal payload messages. */
  lemma RenderInjectiveWithinVariant(a: Error, b: Error)
    requires a.SameVariant(b)
    ensures Render(a) == Render(b) <==> a == b
  {
    if a.Prefixed() {
      PrefixedRenderInjective(a, b);
    }
  }

  /** The payload's own message always ends the rendering; it is the whole
      rendering exactly for the three unprefixed variants. */
  lemma MessageIsSuffix(e: Error)
    ensures |Message(e)| <= |Render(e)|
    ensures Render(e)[|Render(e)| - |Message(e)|..] == Message(e)
    ensures Render(e) == Message(e) <==> !e.Prefixed()
  {
  }

  /** `Unique` and `CapturedPanic` both print their text verbatim, so equal
      texts render identically; `Other` prints the wrapped error's own message. */
  lemma VerbatimVariants(s: string)
    ensures Render(Unique(s)) == s
    ensures Render(CapturedPanic(s)) == Render(Unique(s))
    ensures Render(Other(AnyhowError(s))) == s
  {
  }

  /** The unprefixed `Unique` can carry any rendering, so a rendered message alone
      does not identify the variant: every prefixed error has a `Unique` twin. */
  lemma UniqueImpersonates(e: Error)
    requires e.Prefixed()
    ensures Render(Unique(Render(e))) == Render(e) && Unique(Render(e)) != e
    ensures Recover(Render(Unique(Render(e)))) == Some(e)
  {
    RecoverRender(e);
  }
}
