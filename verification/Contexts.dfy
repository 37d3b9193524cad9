/** The connector-owned component context and the validation of its identities. */
module Contexts {
  import opened Wrappers
  import opened Bytes

  const API_VERSION := "henosis.dev/k8s-component-context/v1"

  datatype BorrowContext = BorrowContext(from: string, effectiveEnvironment: string)

  datatype ComponentContext = ComponentContext(
    apiVersion: string,
    environment: string,
    repository: string,
    revision: string,
    imageDigest: string,
    borrow: Option<BorrowContext>)

  predicate StartsWith(value: string, prefix: string) {
    prefix <= value
  }

  predicate IsLower(c: char) { 'a' <= c <= 'z' }

  predicate IsDigit(c: char) { '0' <= c <= '9' }

  predicate IsLabelChar(c: char) { IsLower(c) || IsDigit(c) || c == '-' }

  /** A lowercase DNS label of at most 63 characters. */
  predicate IsDnsLabel(value: string) {
    0 < |value| <= 63 &&
    (forall c | c in value :: IsLabelChar(c)) &&
    value[0] != '-' && value[|value| - 1] != '-'
  }

  /** Crockford's base-32 alphabet in lowercase: no `i`, `l`, `o` or `u`. */
  const ALPHABET := "0123456789abcdefghjkmnpqrstvwxyz"

  predicate InAlphabet(c: char) {
    IsDigit(c) || (IsLower(c) && c != 'i' && c != 'l' && c != 'o' && c != 'u')
  }

  const PREVIEW_PREFIX := "preview_"

  predicate IsPreviewSuffix(suffix: string) {
    |suffix| == 26 && suffix[0] <= '7' && forall c | c in suffix :: InAlphabet(c)
  }

  predicate IsEnvironmentId(value: string) {
    if StartsWith(value, PREVIEW_PREFIX) then
      IsPreviewSuffix(value[|PREVIEW_PREFIX|..])
    else
      IsDnsLabel(value) && value != "preview" && !StartsWith(value, "preview-")
  }

  predicate IsLowerHex(value: string, length: nat) {
    |value| == length && forall c | c in value :: IsDigit(c) || 'a' <= c <= 'f'
  }

  /** The pieces of a text between the occurrences of a separator. */
  function Split(value: string, separator: char): (parts: seq<string>)
    ensures |parts| > 0
  {
    if value == [] then [""]
    else
      var rest := Split(value[1..], separator);
      if value[0] == separator then [""] + rest
      else [[value[0]] + rest[0]] + rest[1..]
  }

  predicate IsRepositoryPart(part: string) {
    0 < |part| <= 100 &&
    forall c | c in part ::
      IsLower(c) || 'A' <= c <= 'Z' || IsDigit(c) || c == '-' || c == '_' || c == '.'
  }

  predicate IsRepository(value: string) {
    var parts := Split(value, '/');
    |parts| == 2 && IsRepositoryPart(parts[0]) && IsRepositoryPart(parts[1])
  }

  predicate IsBorrow(environment: string, borrow: BorrowContext) {
    StartsWith(environment, PREVIEW_PREFIX) &&
    IsDnsLabel(borrow.from) &&
    IsEnvironmentId(borrow.effectiveEnvironment) &&
    borrow.from == borrow.effectiveEnvironment &&
    borrow.from != "preview" && !StartsWith(borrow.from, "preview-")
  }

  /** Every semantic constraint of the context vocabulary. */
  predicate IsValid(context: ComponentContext) {
    context.apiVersion == API_VERSION &&
    IsEnvironmentId(context.environment) &&
    IsRepository(context.repository) &&
    IsLowerHex(context.revision, 40) &&
    StartsWith(context.imageDigest, "sha256:") &&
    IsLowerHex(context.imageDigest[7..], 64) &&
    (context.borrow.Some? ==> IsBorrow(context.environment, context.borrow.value))
  }

  /* ---------------------------------------------------------------- Pins and labels */

  /** A hexadecimal pin of twice that length spells exactly some `width` bytes. */
  lemma LowerHexSpellsBytes(value: string, width: nat)
    ensures IsLowerHex(value, 2 * width) <==>
            exists bytes: ByteString :: |bytes| == width && value == Hex(bytes)
  {
    UnhexReads(value);
    if IsLowerHex(value, 2 * width) {
      var bytes := Unhex(value).value;
      assert |bytes| == width && value == Hex(bytes);
    }
    if bytes: ByteString :| |bytes| == width && value == Hex(bytes) {
      HexReadsBack(bytes);
    }
    hide Hex, Unhex;
  }

  /** Pieces put together again. */
  function Join(parts: seq<string>, separator: char): string
    requires parts != []
  {
    if |parts| == 1 then parts[0] else parts[0] + [separator] + Join(parts[1..], separator)
  }

  lemma {:induction false} SplitJoins(value: string, separator: char)
    ensures Join(Split(value, separator), separator) == value
    ensures forall part | part in Split(value, separator) :: separator !in part
  {
    if value != "" {
      SplitJoins(value[1..], separator);
      var rest := Split(value[1..], separator);
      var parts := Split(value, separator);
      assert value == [value[0]] + value[1..];
      assert rest[0] in rest;
      if value[0] == separator {
        assert parts[1..] == rest;
      } else {
        assert parts[1..] == rest[1..];
        forall part | part in parts
          ensures separator !in part
        {
          assert part == parts[0] || part in rest;
        }
      }
    }
  }

  lemma {:induction false} JoinedSplits(head: string, tail: string, separator: char)
    requires separator !in head
    ensures Split(head, separator) == [head]
    ensures Split(head + [separator] + tail, separator) == [head] + Split(tail, separator)
  {
    var whole := head + [separator] + tail;
    if head == "" {
      assert whole[1..] == tail;
    } else {
      JoinedSplits(head[1..], tail, separator);
      assert whole[1..] == head[1..] + [separator] + tail;
      assert head == [head[0]] + head[1..];
      assert ([head[1..]] + Split(tail, separator))[1..] == Split(tail, separator);
    }
  }

  /** An accepted repository is two accepted parts around its only slash. */
  lemma RepositoryIsTwoParts(value: string)
    ensures IsRepository(value) <==>
            exists owner: string, name: string ::
              IsRepositoryPart(owner) && IsRepositoryPart(name) && value == owner + "/" + name
    ensures forall part: string | IsRepositoryPart(part) :: '/' !in part
  {
    SplitJoins(value, '/');
    var parts := Split(value, '/');
    if IsRepository(value) {
      assert parts[1..] == [parts[1]];
      assert value == parts[0] + "/" + parts[1];
    }
    if owner: string, name: string :|
      IsRepositoryPart(owner) && IsRepositoryPart(name) && value == owner + "/" + name
    {
      JoinedSplits(owner, name, '/');
      JoinedSplits(name, "", '/');
    }
    hide Split;
  }

  /** Letters and digits. */
  predicate IsAlphanumeric(text: string) {
    forall c | c in text :: IsLower(c) || IsDigit(c)
  }

  /** Runs of letters and digits, joined by hyphens; the outer ones are not empty. */
  predicate IsHyphenated(parts: seq<string>) {
    parts != [] && parts[0] != "" && parts[|parts| - 1] != "" &&
    forall part | part in parts :: IsAlphanumeric(part)
  }

  lemma {:induction false} JoinedChars(parts: seq<string>)
    requires parts != []
    ensures forall c :: c in Join(parts, '-') ==> c == '-' || exists part | part in parts :: c in part
    ensures parts[0] != "" ==> Join(parts, '-') != "" && Join(parts, '-')[0] == parts[0][0]
    ensures parts[|parts| - 1] != "" ==>
              var whole, last := Join(parts, '-'), parts[|parts| - 1];
              whole != "" && whole[|whole| - 1] == last[|last| - 1]
  {
    if |parts| > 1 {
      JoinedChars(parts[1..]);
      assert parts == [parts[0]] + parts[1..];
      assert parts[1..][|parts| - 2] == parts[|parts| - 1];
    }
  }

  lemma {:induction false} JoinHolds(parts: seq<string>, part: string, c: char)
    requires part in parts && c in part
    ensures c in Join(parts, '-')
  {
    if part != parts[0] {
      JoinHolds(parts[1..], part, c);
    }
  }

  /** An accepted label is at most 63 characters of such runs. */
  lemma LabelsAreHyphenated(value: string)
    ensures IsDnsLabel(value) <==>
            |value| <= 63 &&
            exists parts: seq<string> :: IsHyphenated(parts) && value == Join(parts, '-')
  {
    if IsDnsLabel(value) {
      SplitJoins(value, '-');
      var parts := Split(value, '-');
      JoinedChars(parts);
      SplitEnds(value, '-');
      forall part, c | part in parts && c in part
        ensures IsLower(c) || IsDigit(c)
      {
        JoinHolds(parts, part, c);
        assert c in value;
      }
      assert IsHyphenated(parts);
    }
    if parts: seq<string> :| IsHyphenated(parts) && value == Join(parts, '-') {
      JoinedChars(parts);
      assert parts[0] in parts && parts[|parts| - 1] in parts;
      assert parts[0][0] in parts[0];
      var last := parts[|parts| - 1];
      assert last[|last| - 1] in last;
    }
    hide Split, Join;
  }

  lemma {:induction false} SplitEnds(value: string, separator: char)
    requires value != ""
    ensures var parts := Split(value, separator);
            (value[0] != separator ==> parts[0] != "") &&
            (value[|value| - 1] != separator ==> parts[|parts| - 1] != "")
  {
    if |value| > 1 {
      SplitEnds(value[1..], separator);
    } else {
      assert value[1..] == "";
    }
  }

  /* ---------------------------------------------------------------- Identity facts */

  /** A borrowed environment is stable, and never the environment that borrows it. */
  lemma BorrowedIsAnotherStableEnvironment(context: ComponentContext)
    requires IsValid(context) && context.borrow.Some?
    ensures IsDnsLabel(context.borrow.value.effectiveEnvironment)
    ensures !StartsWith(context.borrow.value.effectiveEnvironment, PREVIEW_PREFIX)
    ensures context.borrow.value.effectiveEnvironment != context.environment
  {
    var borrowed := context.borrow.value.effectiveEnvironment;
    assert StartsWith(borrowed, PREVIEW_PREFIX) ==> '_' in borrowed by {
      if StartsWith(borrowed, PREVIEW_PREFIX) {
        assert borrowed[7] == PREVIEW_PREFIX[7];
      }
    }
  }

  /** An identity that is no preview's. */
  predicate IsStable(environment: string) {
    IsEnvironmentId(environment) && !StartsWith(environment, PREVIEW_PREFIX)
  }

  /** Exactly previews borrow, and exactly a stable environment that is named twice. */
  lemma BorrowsAreStable(environment: string, borrow: BorrowContext)
    ensures IsBorrow(environment, borrow) <==>
            StartsWith(environment, PREVIEW_PREFIX) &&
            borrow.from == borrow.effectiveEnvironment && IsStable(borrow.from)
  {
    if StartsWith(borrow.from, PREVIEW_PREFIX) {
      assert borrow.from[7] == PREVIEW_PREFIX[7] == '_' && borrow.from[7] in borrow.from;
    }
  }

  /** How long labels and the parts of a repository can be: there is one of every length in between. */
  lemma LengthsAreBounded(n: nat)
    ensures (exists text: string :: IsDnsLabel(text) && |text| == n) <==> 0 < n <= 63
    ensures (exists text: string :: IsRepositoryPart(text) && |text| == n) <==> 0 < n <= 100
  {
    var text: string := seq(n, _ => 'a');
    if 0 < n <= 63 {
      assert IsDnsLabel(text);
    }
    if 0 < n <= 100 {
      assert IsRepositoryPart(text);
    }
  }

  function Lowered(c: char): char {
    if 'A' <= c <= 'Z' then c - 'A' + 'a' else c
  }

  /** Up to case, dots and underscores, the parts of a repository have the characters of labels. */
  lemma PartsAreLikeLabels(part: string)
    ensures IsRepositoryPart(part) <==>
            0 < |part| <= 100 &&
            forall c | c in part :: IsLabelChar(Lowered(c)) || c == '.' || c == '_'
  {
  }

  /** The source pin: a repository of two parts and a commit of 20 bytes. */
  predicate IsSource(repository: string, revision: string, owner: string, name: string,
                     commit: ByteString)
  {
    IsRepositoryPart(owner) && IsRepositoryPart(name) && repository == owner + "/" + name &&
    |commit| == 20 && revision == Hex(commit)
  }

  /** The image pin: a SHA-256 digest of 32 bytes. */
  predicate IsImage(digest: string, image: ByteString) {
    |image| == 32 && digest == "sha256:" + Hex(image)
  }

  /**
   * A context is valid exactly if it has the version and an identity, pins a source and an image, and
   * borrows, if it does, a stable environment for a preview.
   */
  lemma ValidContextsPin(context: ComponentContext)
    ensures IsValid(context) <==>
            context.apiVersion == API_VERSION && IsEnvironmentId(context.environment) &&
            (exists owner, name, commit ::
               IsSource(context.repository, context.revision, owner, name, commit)) &&
            (exists image :: IsImage(context.imageDigest, image)) &&
            (context.borrow.Some? ==>
               var borrow := context.borrow.value;
               StartsWith(context.environment, PREVIEW_PREFIX) &&
               borrow.from == borrow.effectiveEnvironment && IsStable(borrow.from))
  {
    RepositoryIsTwoParts(context.repository);
    LowerHexSpellsBytes(context.revision, 20);
    if context.borrow.Some? {
      BorrowsAreStable(context.environment, context.borrow.value);
    }
    ImagesSpellBytes(context.imageDigest);
    hide Hex, IsEnvironmentId, IsRepository, IsRepositoryPart, IsBorrow, IsLowerHex, IsStable,
         IsImage, StartsWith;
    if IsRepository(context.repository) && IsLowerHex(context.revision, 40) {
      var owner: string, name: string :|
        IsRepositoryPart(owner) && IsRepositoryPart(name) &&
        context.repository == owner + "/" + name;
      var commit: ByteString :| |commit| == 20 && context.revision == Hex(commit);
      assert IsSource(context.repository, context.revision, owner, name, commit);
    }
  }

  lemma ImagesSpellBytes(digest: string)
    ensures StartsWith(digest, "sha256:") && IsLowerHex(digest[7..], 64) <==>
            exists image :: IsImage(digest, image)
  {
    if StartsWith(digest, "sha256:") {
      LowerHexSpellsBytes(digest[7..], 32);
      if IsLowerHex(digest[7..], 64) {
        var image: ByteString :| |image| == 32 && digest[7..] == Hex(image);
        assert digest == "sha256:" + digest[7..];
        assert IsImage(digest, image);
      }
    }
    if image :| IsImage(digest, image) {
      assert digest[7..] == Hex(image);
    }
    hide Hex, IsLowerHex;
  }

  /** An accepted identity is a single level of a branch name: ASCII, not empty, no separator. */
  lemma EnvironmentIdIsOneBranchLevel(value: string)
    requires IsEnvironmentId(value)
    ensures value != "" && forall c | c in value :: c != '/' && (c as int) < 128
  {
    if StartsWith(value, PREVIEW_PREFIX) {
      forall c | c in value
        ensures c != '/' && (c as int) < 128
      {
        var i :| 0 <= i < |value| && value[i] == c;
        if i < 8 {
          assert c == PREVIEW_PREFIX[i];
        } else {
          assert c == value[8..][i - 8];
          assert InAlphabet(c);
        }
      }
    }
  }

  /* ---------------------------------------------------------------- Preview suffixes */

  /** The value of an alphabet character. */
  function DigitOf(c: char): (d: nat)
    requires InAlphabet(c)
    ensures d < 32 && CharOf(d) == c
  {
    var n := c as int;
    if n < 58 then n - 48
    else if n < 105 then n - 87
    else if n < 108 then n - 88
    else if n < 111 then n - 89
    else if n < 117 then n - 90
    else n - 91
  }

  function CharOf(d: nat): (c: char)
    requires d < 32
    ensures InAlphabet(c)
  {
    (if d < 10 then d + 48
     else if d < 18 then d + 87
     else if d < 20 then d + 88
     else if d < 22 then d + 89
     else if d < 27 then d + 90
     else d + 91) as char
  }

  lemma DigitOfCharOf(d: nat)
    requires d < 32
    ensures DigitOf(CharOf(d)) == d
  {
  }

  /** The digits are those of the alphabet, in its order. */
  lemma AlphabetSpelling(d: nat)
    requires d < 32
    ensures ALPHABET[d] == CharOf(d)
  {
  }

  lemma InAlphabetIsMembership(c: char)
    ensures InAlphabet(c) <==> c in ALPHABET
  {
    if InAlphabet(c) {
      AlphabetSpelling(DigitOf(c));
    }
    if i :| 0 <= i < |ALPHABET| && ALPHABET[i] == c {
      AlphabetSpelling(i);
    }
    hide ALPHABET;
  }

  lemma DigitOrder(a: char, b: char)
    requires InAlphabet(a) && InAlphabet(b)
    ensures a < b <==> DigitOf(a) < DigitOf(b)
    ensures a == b <==> DigitOf(a) == DigitOf(b)
  {
  }

  predicate IsBase32(s: string) {
    forall c | c in s :: InAlphabet(c)
  }

  /** The number that base-32 digits spell, most significant first. */
  function Base32Value(s: string): nat
    requires IsBase32(s)
  {
    if s == [] then 0
    else
      assert s[|s| - 1] in s;
      32 * Base32Value(s[..|s| - 1]) + DigitOf(s[|s| - 1])
  }

  function Base32Digits(n: nat, width: nat): (s: string)
    ensures |s| == width && IsBase32(s)
  {
    if width == 0 then []
    else
      var c := CharOf(n % 32);
      Base32Digits(n / 32, width - 1) + [c]
  }

  function Power32(width: nat): nat {
    if width == 0 then 1 else 32 * Power32(width - 1)
  }

  const TWO_128: nat := 0x1_0000_0000_0000_0000_0000_0000_0000_0000

  lemma {:induction false} Base32ValueIsBounded(s: string)
    requires IsBase32(s)
    ensures Base32Value(s) < Power32(|s|)
  {
    if s != [] {
      assert s[|s| - 1] in s;
      Base32ValueIsBounded(s[..|s| - 1]);
    }
  }

  lemma {:induction false} DigitsOfValue(s: string)
    requires IsBase32(s)
    ensures Base32Digits(Base32Value(s), |s|) == s
  {
    if s != [] {
      var front, last := s[..|s| - 1], s[|s| - 1];
      assert last in s && s == front + [last];
      DigitsOfValue(front);
      assert Base32Value(s) / 32 == Base32Value(front) && Base32Value(s) % 32 == DigitOf(last);
    }
  }

  lemma {:induction false} ValueOfDigits(n: nat, width: nat)
    requires n < Power32(width)
    ensures Base32Value(Base32Digits(n, width)) == n
  {
    if width > 0 {
      var s := Base32Digits(n, width);
      assert s[..width - 1] == Base32Digits(n / 32, width - 1);
      ValueOfDigits(n / 32, width - 1);
      DigitOfCharOf(n % 32);
    }
  }

  lemma ScaleUp(d: nat, p: nat, v: nat)
    ensures 32 * (d * p + v) == d * (32 * p) + 32 * v
  {
  }

  /** The leading digit and the rest of a number's digits. */
  lemma {:induction false} LeadingDigit(s: string)
    requires s != [] && IsBase32(s)
    ensures InAlphabet(s[0]) && IsBase32(s[1..])
    ensures Base32Value(s) == DigitOf(s[0]) * Power32(|s| - 1) + Base32Value(s[1..])
  {
    assert s[0] in s && s[|s| - 1] in s;
    if |s| == 1 {
      assert s[..0] == [] && s[1..] == [];
    } else {
      var front, tail := s[..|s| - 1], s[1..];
      LeadingDigit(front);
      LeadingDigitStep(front, tail, s[0], s[|s| - 1]);
      assert s == front + [s[|s| - 1]];
      hide DigitOf, Base32Value, Power32, IsBase32;
    }
  }

  lemma LeadingDigitStep(front: string, tail: string, first: char, last: char)
    requires IsBase32(front) && IsBase32(tail) && InAlphabet(first) && InAlphabet(last)
    requires front != [] && tail == front[1..] + [last]
    requires Base32Value(front) ==
             DigitOf(first) * Power32(|front| - 1) + Base32Value(front[1..])
    ensures IsBase32(front + [last])
    ensures Base32Value(front + [last]) == DigitOf(first) * Power32(|front|) + Base32Value(tail)
  {
    assert (front + [last])[..|front|] == front;
    assert tail[..|tail| - 1] == front[1..];
    ScaleUp(DigitOf(first), Power32(|front| - 1), Base32Value(front[1..]));
    hide DigitOf, InAlphabet;
  }

  lemma Power32Of25()
    ensures 8 * Power32(25) == TWO_128
  {
    assert Power32(5) == 0x200_0000;
    assert Power32(10) == 0x4_0000_0000_0000;
    assert Power32(15) == 0x800_0000_0000_0000_0000;
    assert Power32(20) == 0x10_0000_0000_0000_0000_0000_0000;
    assert Power32(25) == 0x2000_0000_0000_0000_0000_0000_0000_0000;
  }

  /** Of the 26-digit base-32 numerals, exactly those of 128-bit integers are accepted. */
  lemma PreviewSuffixIsA128BitInteger(s: string)
    ensures IsPreviewSuffix(s) <==> |s| == 26 && IsBase32(s) && Base32Value(s) < TWO_128
  {
    if |s| == 26 && IsBase32(s) {
      LeadingDigit(s);
      Base32ValueIsBounded(s[1..]);
      Power32Of25();
      assert DigitOf('7') == 7;
      DigitOrder('7', s[0]);
      if DigitOf(s[0]) <= 7 {
        assert DigitOf(s[0]) * Power32(25) <= 7 * Power32(25);
      } else {
        assert DigitOf(s[0]) * Power32(25) >= 8 * Power32(25);
      }
    }
  }

  /** Accepted suffixes and 128-bit integers correspond one to one. */
  lemma PreviewSuffixBijection(s: string, n: nat)
    requires n < TWO_128
    ensures IsPreviewSuffix(Base32Digits(n, 26)) && Base32Value(Base32Digits(n, 26)) == n
    ensures IsPreviewSuffix(s) ==> Base32Digits(Base32Value(s), 26) == s
  {
    Power32Of25();
    assert Power32(26) == 32 * Power32(25);
    ValueOfDigits(n, 26);
    PreviewSuffixIsA128BitInteger(Base32Digits(n, 26));
    PreviewSuffixIsA128BitInteger(s);
    if IsPreviewSuffix(s) {
      DigitsOfValue(s);
    }
  }

  /** The order of texts, character by character. */
  predicate TextBefore(a: string, b: string)
    requires |a| == |b|
  {
    a != [] && (a[0] < b[0] || (a[0] == b[0] && TextBefore(a[1..], b[1..])))
  }

  lemma LeadingDigitDecides(p: nat, x: nat, u: nat, y: nat, v: nat)
    requires u < p && v < p
    ensures x * p + u < y * p + v <==> x < y || (x == y && u < v)
  {
    if x < y {
      assert (x + 1) * p <= y * p;
    } else if y < x {
      assert (y + 1) * p <= x * p;
    }
  }

  /** Numerals of one width are ordered as texts exactly as their values are. */
  lemma {:induction false} SuffixOrderIsNumeric(a: string, b: string)
    requires |a| == |b| && IsBase32(a) && IsBase32(b)
    ensures TextBefore(a, b) <==> Base32Value(a) < Base32Value(b)
  {
    if a != [] {
      LeadingDigit(a);
      LeadingDigit(b);
      DigitOrder(a[0], b[0]);
      Base32ValueIsBounded(a[1..]);
      Base32ValueIsBounded(b[1..]);
      SuffixOrderIsNumeric(a[1..], b[1..]);
      LeadingDigitDecides(Power32(|a| - 1), DigitOf(a[0]), Base32Value(a[1..]),
                          DigitOf(b[0]), Base32Value(b[1..]));
      hide DigitOf, Base32Value, Power32;
    }
  }
}
