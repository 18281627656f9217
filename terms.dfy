/**
  The normalisation of `params.video_terms` at the head of `generate_terms`:
  a string is cut at ASCII and full-width commas and every piece stripped,
  a list has every element stripped, a falsy value asks the language model
  for five terms, and anything else is a configuration error.
 */
module Terms {
  import opened Text
  import opened Job

  /** Where `generate_terms` takes its terms from. */
  datatype TermsSource = Supplied(terms: seq<string>) | Generate(amount: int) | BadShape

  /** The `amount` passed to `llm.generate_terms`. */
  const GeneratedAmount := 5

  function NormalizeTerms(t: TermsInput): (r: TermsSource)
    ensures r == Generate(GeneratedAmount) <==> !Truthy(t)
    ensures r == BadShape <==> t.TermsOther? && t.truthy
    ensures t.TermsText? && t.text != [] ==> r.Supplied? && |r.terms| == |Separators(t.text)| + 1
    ensures t.TermsList? && t.items != [] ==> r.Supplied? && |r.terms| == |t.items|
    ensures r.Supplied? ==> r.terms != [] && forall k :: 0 <= k < |r.terms| ==> Trimmed(r.terms[k])
  {
    if !Truthy(t) then Generate(GeneratedAmount)
    else
      match t
      case TermsText(s) => Supplied(StripEach(SplitTerms(s)))
      case TermsList(xs) => Supplied(StripEach(xs))
      case TermsOther(_, _) => BadShape
  }

  /** Every supplied term comes from one piece of the input, in order: the
      k-th term of a string is the stripped k-th piece between separators,
      the k-th term of a list its stripped k-th element. */
  lemma SuppliedTermsInOrder(t: TermsInput, k: nat)
    requires NormalizeTerms(t).Supplied? && k < |NormalizeTerms(t).terms|
    ensures t.TermsText? ==> k < |SplitTerms(t.text)| && NormalizeTerms(t).terms[k] == Strip(SplitTerms(t.text)[k])
    ensures t.TermsList? ==> k < |t.items| && NormalizeTerms(t).terms[k] == Strip(t.items[k])
    ensures t.TermsText? || t.TermsList?
  {
  }

  /** Normalising already-normalised terms, given back as a list, changes nothing. */
  lemma NormalizeIdempotent(t: TermsInput)
    requires NormalizeTerms(t).Supplied?
    ensures NormalizeTerms(TermsList(NormalizeTerms(t).terms)) == NormalizeTerms(t)
  {
    var ts := NormalizeTerms(t).terms;
    StripEachTrimmed(ts);
  }

  /** Stripping a list of trimmed strings changes nothing. */
  lemma StripEachTrimmed(ts: seq<string>)
    requires forall k :: 0 <= k < |ts| ==> Trimmed(ts[k])
    ensures StripEach(ts) == ts
  {
    forall k | 0 <= k < |ts| ensures StripEach(ts)[k] == ts[k] {
      StripUnique(ts[k], 0, |ts[k]|);
    }
  }

  /** The shape of the worked example `"cat, dog,  fox"` giving
      `["cat", "dog", "fox"]`: three words without separators, each after
      a run of white space, come back as the bare words. */
  lemma PaddedWordsNormalize(a: string, pb: string, b: string, pc: string, c: string)
    requires a != [] && b != [] && c != []
    requires Trimmed(a) && Trimmed(b) && Trimmed(c)
    requires NoSep(a) && NoSep(b) && NoSep(c)
    requires forall k :: 0 <= k < |pb| ==> IsSpace(pb[k])
    requires forall k :: 0 <= k < |pc| ==> IsSpace(pc[k])
    ensures NormalizeTerms(TermsText(a + [','] + (pb + b) + [','] + (pc + c))) == Supplied([a, b, c])
  {
    SpacesHaveNoSep(pb, b);
    SpacesHaveNoSep(pc, c);
    SplitThreePieces(a, pb + b, pc + c);
    StripEachOfThree(a, pb + b, pc + c);
    StripPadded(a, 0);
    StripPadded(pb + b, |pb|);
    StripPadded(pc + c, |pc|);
  }

  lemma SpacesHaveNoSep(pad: string, w: string)
    requires forall k :: 0 <= k < |pad| ==> IsSpace(pad[k])
    requires NoSep(w)
    ensures NoSep(pad + w)
  {
    forall k | 0 <= k < |pad + w| ensures !IsSep((pad + w)[k]) {
      if k < |pad| {
        assert IsSpace(pad[k]);
      } else {
        assert (pad + w)[k] == w[k - |pad|];
      }
    }
  }

  lemma SplitThreePieces(a: string, b: string, c: string)
    requires NoSep(a) && NoSep(b) && NoSep(c)
    ensures SplitTerms(a + [','] + b + [','] + c) == [a, b, c]
  {
    SplitSinglePiece(c);
    SplitAfterPiece(b, c);
    SplitAfterPiece(a, b + [','] + c);
    assert a + [','] + b + [','] + c == a + [','] + (b + [','] + c);
  }

  lemma StripEachOfThree(a: string, b: string, c: string)
    ensures StripEach([a, b, c]) == [Strip(a), Strip(b), Strip(c)]
  {
  }

  /** White space in front of a trimmed word is all that stripping removes. */
  lemma StripPadded(s: string, n: nat)
    requires n < |s|
    requires forall k :: 0 <= k < n ==> IsSpace(s[k])
    requires Trimmed(s[n..])
    ensures Strip(s) == s[n..]
  {
    StripUnique(s, n, |s|);
  }
}
