/**
 * The transaction classifier: a transaction is a sponsorship when its
 * lower-cased description contains "sponsorship"; every other transaction is a
 * sale. Lower-casing follows PHP's `strtolower`, which maps only the ASCII
 * letters A-Z; substring search follows Laravel's `Str::contains`, which is
 * false for an empty needle.
 */
module Classifier {
  import opened Ledger

  const Keyword: string := "sponsorship"

  datatype Bucket = Sponsorship | Sale

  function LowerChar(c: char): (r: char)
    ensures 'A' <= c <= 'Z' ==> r as int == c as int + 32
    ensures !('A' <= c <= 'Z') ==> r == c
    ensures !('A' <= r <= 'Z')
  {
    if 'A' <= c <= 'Z' then (c as int + 32) as char else c
  }

  /** PHP `strtolower`: every character lower-cased on its own. */
  function ToLower(s: string): (r: string)
    ensures |r| == |s|
    ensures forall i :: 0 <= i < |s| ==> r[i] == LowerChar(s[i])
  {
    if s == [] then [] else [LowerChar(s[0])] + ToLower(s[1..])
  }

  ghost predicate OccursAt(hay: string, needle: string, i: int)
  {
    0 <= i && i + |needle| <= |hay| && hay[i..i + |needle|] == needle
  }

  /** Whether `needle` occurs in `hay` as a contiguous substring. */
  function Occurs(hay: string, needle: string): (r: bool)
    ensures r <==> exists i :: OccursAt(hay, needle, i)
    decreases |hay|
  {
    if |hay| < |needle| then false
    else if hay[..|needle|] == needle then assert OccursAt(hay, needle, 0); true
    else OccursInTail(hay, needle); Occurs(hay[1..], needle)
  }

  /** Past a mismatch at position 0, the occurrences of `needle` are those in the tail. */
  lemma OccursInTail(hay: string, needle: string)
    requires |needle| <= |hay| && hay[..|needle|] != needle
    ensures (exists i :: OccursAt(hay, needle, i)) <==> (exists i :: OccursAt(hay[1..], needle, i))
  {
    forall i | OccursAt(hay[1..], needle, i) ensures OccursAt(hay, needle, i + 1) {
      assert hay[1..][i..i + |needle|] == hay[i + 1..i + 1 + |needle|];
    }
    forall i | OccursAt(hay, needle, i) ensures i >= 1 && OccursAt(hay[1..], needle, i - 1) {
      assert i != 0;
      assert hay[1..][i - 1..i - 1 + |needle|] == hay[i..i + |needle|];
    }
  }

  /** Laravel `Str::contains` for a single needle. */
  function StrContains(hay: string, needle: string): (r: bool)
    ensures r <==> needle != [] && exists i :: OccursAt(hay, needle, i)
  {
    needle != [] && Occurs(hay, needle)
  }


  lemma {:induction false} ToLowerSlice(s: string, i: int, j: int)
    requires 0 <= i <= j <= |s|
    ensures ToLower(s)[i..j] == ToLower(s[i..j])
  {
    assert |ToLower(s)[i..j]| == j - i == |ToLower(s[i..j])|;
    forall k | 0 <= k < j - i ensures ToLower(s)[i..j][k] == ToLower(s[i..j])[k] {
      assert ToLower(s)[i..j][k] == ToLower(s)[i + k] == LowerChar(s[i + k]);
      assert ToLower(s[i..j])[k] == LowerChar(s[i..j][k]);
    }
  }

  /** The window of `d` at `i` spells the keyword in some mix of cases. */
  ghost predicate KeywordWindowAt(d: string, i: int)
  {
    0 <= i && i + |Keyword| <= |d| && ToLower(d[i..i + |Keyword|]) == Keyword
  }

  /** Lower-casing first and then searching finds exactly the windows that spell the keyword in any case. */
  lemma SponsorshipIffKeywordInAnyCase(d: string)
    ensures StrContains(ToLower(d), Keyword) <==> exists i :: KeywordWindowAt(d, i)
  {
    var n := |Keyword|;
    if StrContains(ToLower(d), Keyword) {
      var i :| OccursAt(ToLower(d), Keyword, i);
      ToLowerSlice(d, i, i + n);
      assert KeywordWindowAt(d, i);
    }
    if exists i :: KeywordWindowAt(d, i) {
      var i :| KeywordWindowAt(d, i);
      ToLowerSlice(d, i, i + n);
      assert OccursAt(ToLower(d), Keyword, i);
    }
  }

  /**
   * The sponsorship filter of the builder, applied to a description. It is
   * case-insensitive: a description is a sponsorship exactly when some window
   * of it spells "sponsorship" in any mix of ASCII upper and lower case.
   */
  function IsSponsorship(description: string): (r: bool)
    ensures r <==> exists i :: KeywordWindowAt(description, i)
  {
    SponsorshipIffKeywordInAnyCase(description);
    StrContains(ToLower(description), Keyword)
  }

  /** The bucket a transaction is counted in; sale is the literal negation of sponsorship. */
  function BucketOf(t: Transaction): (b: Bucket)
    ensures b == Sponsorship <==> IsSponsorship(t.description)
    ensures b == Sale <==> !IsSponsorship(t.description)
  {
    if IsSponsorship(t.description) then Sponsorship else Sale
  }

  /** Any description with the keyword spelled in any case, anywhere, is a sponsorship. */
  lemma KeywordAnywhereIsSponsorship(before: string, word: string, after: string)
    requires ToLower(word) == Keyword
    ensures IsSponsorship(before + word + after)
  {
    var d := before + word + after;
    assert d[|before|..|before| + |word|] == word;
    assert KeywordWindowAt(d, |before|);
  }

  /** Descriptions that agree after lower-casing land in the same bucket. */
  lemma {:induction false} SameLowerSameBucket(a: Transaction, b: Transaction)
    requires |a.description| == |b.description|
    requires forall i :: 0 <= i < |a.description| ==> LowerChar(a.description[i]) == LowerChar(b.description[i])
    ensures BucketOf(a) == BucketOf(b)
  {
    assert ToLower(a.description) == ToLower(b.description);
  }

  // Descriptions from the worked payouts

  /** A description with no letter 's' in either case is a sale. */
  lemma {:induction false} NoLetterSIsSale(d: string)
    requires forall k :: 0 <= k < |d| ==> d[k] != 's' && d[k] != 'S'
    ensures !IsSponsorship(d)
  {
    var low := ToLower(d);
    forall i | 0 <= i && i + |Keyword| <= |low| ensures !OccursAt(low, Keyword, i) {
      assert low[i..i + |Keyword|][0] == low[i] != Keyword[0];
    }
  }

  lemma TicketIsSale(d: string)
    requires d == "Ticket"
    ensures !IsSponsorship(d)
  {
    NoLetterSIsSale(d);
  }

  lemma TicketRefundIsSale(d: string)
    requires d == "Ticket refund"
    ensures !IsSponsorship(d)
  {
    NoLetterSIsSale(d);
  }

  lemma SponsorshipPackageIsSponsorship(d: string)
    requires d == "Sponsorship pkg"
    ensures IsSponsorship(d)
  {
    assert ToLower(d[0..11]) == Keyword by {
      assert d[0..11] == "Sponsorship";
    }
    assert KeywordWindowAt(d, 0);
  }
}
