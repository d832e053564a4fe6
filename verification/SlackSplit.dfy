/** Cutting a long reply into Slack messages (`splitForSlack` in packages/mom/src/agent.ts). */
module SlackSplit {
  import opened Numerals

  const SLACK_MAX_LENGTH := 40000
  const CHUNK := SLACK_MAX_LENGTH - 50

  function Suffix(partNum: nat): string {
    "\n_(continued " + Decimal(partNum) + "...)_"
  }

  /** Where a double stops counting: adding one to it rounds back to it. */
  const LAST_COUNT := 9007199254740992

  /** `partNum++` on a double. */
  function Increment(n: nat): nat {
    if n < LAST_COUNT then n + 1 else n
  }

  /** The number a part's suffix shows. */
  function PartNumber(k: nat): nat {
    Min(k, LAST_COUNT)
  }

  function PartCount(length: nat): nat {
    if length <= SLACK_MAX_LENGTH then 1 else (length + CHUNK - 1) / CHUNK
  }

  function Min(a: int, b: int): int {
    if a < b then a else b
  }

  /** The k-th piece of the text. */
  function Piece(text: string, k: nat): string {
    text[Min(k * CHUNK, |text|)..Min((k + 1) * CHUNK, |text|)]
  }

  function Part(text: string, k: nat): string {
    if k + 1 < PartCount(|text|) then Piece(text, k) + Suffix(PartNumber(k + 1)) else Piece(text, k)
  }

  /** What a reader does: drop the suffix its position gives each part but the last, and join. */
  function Unsplit(parts: seq<string>, k: nat): string
    requires k <= |parts|
  {
    if k == 0 then ""
    else
      var part := parts[k - 1];
      Unsplit(parts, k - 1) + part[..|part| - (if k < |parts| then Min(|Suffix(PartNumber(k))|, |part|) else 0)]
  }

  /** The text before the k-th cut. */
  function Before(text: string, k: nat): string {
    text[..Min(k * CHUNK, |text|)]
  }

  /** The text after it. */
  function Remaining(text: string, k: nat): string {
    text[Min(k * CHUNK, |text|)..]
  }

  /** What a part of a cut text is: the next 39950 characters, or what is left, and in every part but the
      last a note with its number. */
  lemma PartMeaning(text: string, k: nat) returns (numeral: string)
    requires |text| > SLACK_MAX_LENGTH && k < PartCount(|text|)
    ensures 39950 * k < |text| && (k + 1 == PartCount(|text|) <==> |text| <= 39950 * (k + 1))
    ensures Part(text, k) == if |text| <= 39950 * (k + 1) then text[39950 * k..]
                             else text[39950 * k..39950 * (k + 1)] + "\n_(continued " + numeral + "...)_"
    ensures k < 9007199254740992 ==> ValueOf(numeral) == k + 1
  {
    numeral := Decimal(PartNumber(k + 1));
    DecimalDenotes(PartNumber(k + 1));
    CountMeaning(|text|, k);
    hide PartCount, Decimal, ValueOf;
    assert Piece(text, k) == text[39950 * k..Min(39950 * (k + 1), |text|)];
    var piece := Piece(text, k);
    assert piece + ("\n_(continued " + numeral + "...)_") == piece + "\n_(continued " + numeral + "...)_";
  }

  lemma CountMeaning(length: nat, k: nat)
    requires length > SLACK_MAX_LENGTH && k < PartCount(length)
    ensures 39950 * k < length && (k + 1 == PartCount(length) <==> length <= 39950 * (k + 1))
  {
  }

  lemma {:induction false} UnsplitPieces(text: string, parts: seq<string>, k: nat)
    requires |text| > SLACK_MAX_LENGTH && |parts| == PartCount(|text|) && k <= |parts|
    requires forall i | 0 <= i < |parts| :: parts[i] == Part(text, i)
    ensures Unsplit(parts, k) == Before(text, k)
  {
    hide Part, Piece, Suffix, PartCount;
    if k > 0 {
      UnsplitPieces(text, parts, k - 1);
      PieceOf(text, parts[k - 1], k - 1);
      PiecesJoin(text, k - 1);
    }
  }

  lemma PieceOf(text: string, part: string, k: nat)
    requires |text| > SLACK_MAX_LENGTH && k < PartCount(|text|) && part == Part(text, k)
    ensures part[..|part| - (if k + 1 < PartCount(|text|) then Min(|Suffix(PartNumber(k + 1))|, |part|) else 0)]
            == Piece(text, k)
  {
  }

  lemma PiecesJoin(text: string, k: nat)
    ensures Before(text, k) + Piece(text, k) == Before(text, k + 1)
  {
  }

  lemma NextPart(text: string, k: nat, remaining: string, rest: string)
    requires |text| > SLACK_MAX_LENGTH && remaining == Remaining(text, k) && remaining != ""
    requires rest == remaining[Cut(|remaining|)..]
    ensures k < PartCount(|text|) && (rest == "" <==> k + 1 == PartCount(|text|))
    ensures rest == Remaining(text, k + 1)
    ensures remaining[..Cut(|remaining|)] + (if rest != "" then Suffix(PartNumber(k + 1)) else "")
         == Part(text, k)
  {
    assert remaining[..Cut(|remaining|)] == Piece(text, k);
    assert Piece(text, k) + "" == Piece(text, k);
  }

  /** Nothing is lost, repeated or reordered, and no part carries text of its own but its suffix. */
  method SplitForSlack(text: string) returns (parts: seq<string>)
    ensures |parts| == PartCount(|text|) && Unsplit(parts, |parts|) == text
    ensures |text| <= SLACK_MAX_LENGTH ==> parts == [text]
    ensures |text| > SLACK_MAX_LENGTH ==> forall k | 0 <= k < |parts| :: parts[k] == Part(text, k)
    ensures forall k | 0 <= k < |parts| :: |parts[k]| <= SLACK_MAX_LENGTH && (parts[k] == "" <==> text == "")
  {
    if |text| <= SLACK_MAX_LENGTH {
      OnePart(text);
      return [text];
    }
    hide *;
    parts := [];
    var remaining := text;
    var partNum := 1;
    NothingCut(text);
    while |remaining| > 0
      invariant CutInto(text, parts, remaining, partNum)
      decreases |remaining|
    {
      var cut := Cut(|remaining|);
      var chunk := remaining[..cut];
      var suffix := if |remaining[cut..]| > 0 then Suffix(partNum) else "";
      CutStep(text, parts, remaining, partNum, cut, suffix);
      remaining := remaining[cut..];
      parts := parts + [chunk + suffix];
      partNum := Increment(partNum);
    }
    PartsMakeText(text, parts, partNum);
  }

  /** How much of the rest `substring(0, CHUNK)` takes. */
  function Cut(length: nat): (r: nat)
    ensures r <= length && (length > 0 ==> r > 0)
  {
    Min(length, CHUNK)
  }

  /** The first parts are those of the text, and this is what remains. */
  ghost predicate CutInto(text: string, parts: seq<string>, remaining: string, partNum: nat) {
    && |text| > SLACK_MAX_LENGTH && partNum == PartNumber(|parts| + 1)
    && remaining == Remaining(text, |parts|)
    && |parts| <= PartCount(|text|) && (remaining == "" ==> |parts| == PartCount(|text|))
    && forall k | 0 <= k < |parts| :: parts[k] == Part(text, k)
  }

  lemma NothingCut(text: string)
    requires |text| > SLACK_MAX_LENGTH
    ensures CutInto(text, [], text, 1)
  {
    assert Min(0 * CHUNK, |text|) == 0;
  }

  lemma CutStep(text: string, parts: seq<string>, remaining: string, partNum: nat, cut: nat, suffix: string)
    requires CutInto(text, parts, remaining, partNum) && remaining != "" && cut == Cut(|remaining|)
    requires suffix == if |remaining[cut..]| > 0 then Suffix(partNum) else ""
    ensures CutInto(text, parts + [remaining[..cut] + suffix], remaining[cut..], Increment(partNum))
  {
    hide Suffix, Part, PartCount, Remaining, Cut, Min, PartNumber, Increment;
    NextPart(text, |parts|, remaining, remaining[cut..]);
    NextNumber(|parts| + 1);
  }

  lemma NextNumber(k: nat)
    ensures PartNumber(k + 1) == Increment(PartNumber(k))
  {
  }

  lemma OnePart(text: string)
    requires |text| <= SLACK_MAX_LENGTH
    ensures Unsplit([text], 1) == text && PartCount(|text|) == 1
  {
    assert Unsplit([text], 0) + text == text;
  }

  lemma PartsMakeText(text: string, parts: seq<string>, partNum: nat)
    requires CutInto(text, parts, "", partNum)
    ensures |parts| == PartCount(|text|) && |text| > SLACK_MAX_LENGTH
    ensures forall k | 0 <= k < |parts| :: parts[k] == Part(text, k)
    ensures Unsplit(parts, |parts|) == text
    ensures forall k | 0 <= k < |parts| :: 0 < |parts[k]| <= SLACK_MAX_LENGTH
  {
    assert PartCount(|text|) * CHUNK >= |text| && text[..|text|] == text;
    hide Unsplit, Part, PartCount;
    UnsplitPieces(text, parts, |parts|);
    PartsFit(text);
  }

  /** Every part of a cut text fits Slack's limit and none is empty: a suffix takes 18 characters and its
      number at most 16 digits, and 50 are kept free. */
  lemma PartsFit(text: string)
    requires |text| > SLACK_MAX_LENGTH
    ensures forall k | 0 <= k < PartCount(|text|) :: 0 < |Part(text, k)| <= SLACK_MAX_LENGTH - 16
  {
    hide Suffix, PartNumber;
    forall k: nat
      ensures |Suffix(PartNumber(k))| <= 34
    {
      SuffixLength(k);
    }
  }

  lemma SuffixLength(k: nat)
    ensures |Suffix(PartNumber(k))| <= 34
  {
    var partNum := PartNumber(k);
    assert Power10(4) == 10000;
    assert Power10(8) == 100000000;
    assert Power10(12) == 1000000000000;
    assert Power10(16) == 10000000000000000;
    DecimalDigits(partNum, 16);
    hide Decimal, Power10;
    assert |Suffix(partNum)| == 18 + |Decimal(partNum)|;
  }
}
