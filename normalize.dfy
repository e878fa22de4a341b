/** `normalize` (index.js:42-49): the clean-up applied to every file the
    module reads. It strips one leading byte-order mark (U+FEFF; the regular
    expression `/^\uFEFF/` has no `g` flag and no `m` flag, so only position 0
    is looked at, once) and then deletes every carriage return (`/\r/g`), not
    only those of CRLF pairs. */
module Normalizer {

  const BOM: char := '\U{FEFF}'
  const CR: char := '\r'

  predicate StartsWithBom(s: string) {
    |s| > 0 && s[0] == BOM
  }

  /** `str.replace(/^\uFEFF/, '')`. */
  function StripBom(s: string): (r: string)
    ensures StartsWithBom(s) ==> [BOM] + r == s
    ensures !StartsWithBom(s) ==> r == s
  {
    if StartsWithBom(s) then s[1..] else s
  }

  /** `str.replace(/\r/g, '')`: the characters of `s` other than CR, in order. */
  function DeleteCR(s: string): (r: string)
    ensures CR !in r
    ensures |r| <= |s|
    ensures CR !in s ==> r == s
  {
    if s == [] then []
    else if s[0] == CR then DeleteCR(s[1..])
    else [s[0]] + DeleteCR(s[1..])
  }

  function Normalize(s: string): (r: string)
    ensures CR !in r
    ensures |r| <= |s|
    ensures CR !in s && !StartsWithBom(s) ==> r == s
  {
    DeleteCR(StripBom(s))
  }

  /** Deleting CRs works piecewise: it distributes over concatenation, and on
      one character it keeps that character exactly when it is not CR. With
      these two facts `DeleteCR` is determined: the other characters keep
      their order. */
  lemma {:induction false} DeleteCRAppend(a: string, b: string)
    ensures DeleteCR(a + b) == DeleteCR(a) + DeleteCR(b)
  {
    if a == [] {
      assert a + b == b;
    } else {
      assert (a + b)[0] == a[0];
      assert (a + b)[1..] == a[1..] + b;
      DeleteCRAppend(a[1..], b);
    }
  }

  lemma DeleteCRSingle(c: char)
    ensures DeleteCR([c]) == if c == CR then [] else [c]
  {
  }

  /** Every character other than CR occurs in `DeleteCR(s)` exactly as often
      as in `s`: nothing but CR is deleted. */
  lemma {:induction false} DeleteCRKeepsOthers(s: string, c: char)
    requires c != CR
    ensures multiset(DeleteCR(s))[c] == multiset(s)[c]
  {
    if s != [] {
      assert s == [s[0]] + s[1..];
      DeleteCRKeepsOthers(s[1..], c);
    }
  }

  /** The output of `normalize` holds every character of the input except CR
      and one leading BOM, each as often as the input does, and in the input's
      order (the order part is `DeleteCRAppend`). A BOM anywhere but at
      position 0, or a second leading BOM, is kept. */
  lemma NormalizeKeepsOthers(s: string, c: char)
    requires c != CR
    ensures multiset(Normalize(s))[c]
            == multiset(s)[c] - (if c == BOM && StartsWithBom(s) then 1 else 0)
  {
    DeleteCRKeepsOthers(StripBom(s), c);
    if StartsWithBom(s) {
      assert s == [BOM] + StripBom(s);
    }
  }

  /** `normalize` is the identity exactly on the strings that carry neither a
      CR nor a leading BOM. */
  lemma NormalizeIdentityIff(s: string)
    ensures Normalize(s) == s <==> CR !in s && !StartsWithBom(s)
  {
  }

  /** `normalize` is not idempotent: it strips only one BOM, so a second one
      surfaces at the front of its output. */
  lemma NormalizeNotIdempotentDoubleBom()
    ensures Normalize("\U{FEFF}\U{FEFF}x") == "\U{FEFF}x"
    ensures Normalize(Normalize("\U{FEFF}\U{FEFF}x")) == "x"
  {
  }

  /** Nor when a CR hides a BOM: the BOM test runs before the CRs go. */
  lemma NormalizeNotIdempotentCrBom()
    ensures Normalize("\r\U{FEFF}x") == "\U{FEFF}x"
    ensures Normalize(Normalize("\r\U{FEFF}x")) == "x"
  {
  }
}
