/** The review projection: what the host's name-status stream says about two trees. */
module Reviews {
  import opened Wrappers
  import opened Bytes
  import opened OrdMaps
  import opened Trees

  /* ---------------------------------------------------------------- UTF-8 */

  predicate IsContinuation(b: byte) {
    0x80 <= b <= 0xBF
  }

  /** The length of the character that a byte string starts with; zero if it starts with none. */
  function CharLength(b: ByteString): (n: nat)
    ensures n <= |b| && n <= 4
  {
    if b == [] then 0
    else if b[0] < 0x80 then 1
    else if 0xC2 <= b[0] <= 0xDF && |b| >= 2 && IsContinuation(b[1]) then 2
    else if 0xE0 <= b[0] <= 0xEF && |b| >= 3 && IsContinuation(b[1]) && IsContinuation(b[2]) &&
            (b[0] == 0xE0 ==> b[1] >= 0xA0) && (b[0] == 0xED ==> b[1] <= 0x9F) then 3
    else if 0xF0 <= b[0] <= 0xF4 && |b| >= 4 && IsContinuation(b[1]) && IsContinuation(b[2]) &&
            IsContinuation(b[3]) &&
            (b[0] == 0xF0 ==> b[1] >= 0x90) && (b[0] == 0xF4 ==> b[1] <= 0x8F) then 4
    else 0
  }

  predicate ValidUtf8(b: ByteString) {
    b == [] || (CharLength(b) > 0 && ValidUtf8(b[CharLength(b)..]))
  }

  /* ---------------------------------------------------------------- Characters and their bytes */

  /** A Unicode scalar value: a code point that is no surrogate. */
  type Scalar = n: nat | n < 0xD800 || 0xE000 <= n < 0x11_0000

  /** The bytes of a character. */
  function Encode(c: Scalar): ByteString {
    if c < 0x80 then [c as byte]
    else if c < 0x800 then [(0xC0 + c / 64) as byte, (0x80 + c % 64) as byte]
    else if c < 0x1_0000 then
      [(0xE0 + c / 4096) as byte, (0x80 + c / 64 % 64) as byte, (0x80 + c % 64) as byte]
    else
      [(0xF0 + c / 262144) as byte, (0x80 + c / 4096 % 64) as byte, (0x80 + c / 64 % 64) as byte,
       (0x80 + c % 64) as byte]
  }

  lemma EncodedIsRead(c: Scalar, rest: ByteString)
    ensures CharLength(Encode(c) + rest) == |Encode(c)|
    ensures (Encode(c) + rest)[|Encode(c)|..] == rest
  {
    var b := Encode(c) + rest;
    if 0x800 <= c < 0x1_0000 {
      assert c / 4096 == 0 ==> c / 64 % 64 >= 0x20;
      assert c / 4096 == 0xD ==> c / 64 % 64 <= 0x1F;
    } else if c >= 0x1_0000 {
      assert c / 262144 == 0 ==> c / 4096 % 64 >= 0x10;
      assert c / 262144 == 4 ==> c / 4096 % 64 <= 0xF;
    }
  }

  /** Six bits each, below a leading part. */
  lemma SixBits(lead: nat, x: nat, y: nat, z: nat)
    requires x < 64 && y < 64 && z < 64
    ensures var n := lead * 64 + x; n / 64 == lead && n % 64 == x
    ensures var n := lead * 4096 + x * 64 + y;
            n / 4096 == lead && n / 64 % 64 == x && n % 64 == y
    ensures var n := lead * 262144 + x * 4096 + y * 64 + z;
            n / 262144 == lead && n / 4096 % 64 == x && n / 64 % 64 == y && n % 64 == z
  {
    assert (lead * 4096 + x * 64 + y) / 64 == lead * 64 + x;
    assert (lead * 262144 + x * 4096 + y * 64 + z) / 64 == lead * 4096 + x * 64 + y;
    assert (lead * 262144 + x * 4096 + y * 64 + z) / 4096 == lead * 64 + x;
  }

  lemma ReadIsEncoded(b: ByteString) returns (c: Scalar)
    requires CharLength(b) > 0
    ensures Encode(c) == b[..CharLength(b)]
  {
    if CharLength(b) <= 2 {
      c := ShortIsEncoded(b);
    } else if CharLength(b) == 3 {
      c := ThreeAreEncoded(b);
    } else {
      c := FourAreEncoded(b);
    }
  }

  lemma ShortIsEncoded(b: ByteString) returns (c: Scalar)
    requires 0 < CharLength(b) <= 2
    ensures Encode(c) == b[..CharLength(b)]
  {
    if CharLength(b) == 1 {
      c := b[0] as nat;
    } else {
      SixBits(b[0] as nat - 0xC0, b[1] as nat - 0x80, 0, 0);
      c := (b[0] as nat - 0xC0) * 64 + (b[1] as nat - 0x80);
    }
  }

  lemma ThreeAreEncoded(b: ByteString) returns (c: Scalar)
    requires CharLength(b) == 3
    ensures Encode(c) == b[..3]
  {
    var lead, x, y := b[0] as nat - 0xE0, b[1] as nat - 0x80, b[2] as nat - 0x80;
    assert lead < 16 && x < 64 && y < 64;
    assert (lead == 0 ==> x >= 32) && (lead == 0xD ==> x < 32);
    SixBits(lead, x, y, 0);
    c := lead * 4096 + x * 64 + y;
  }

  lemma FourAreEncoded(b: ByteString) returns (c: Scalar)
    requires CharLength(b) == 4
    ensures Encode(c) == b[..4]
  {
    var lead, x, y, z := b[0] as nat - 0xF0, b[1] as nat - 0x80, b[2] as nat - 0x80, b[3] as nat - 0x80;
    assert lead < 5 && x < 64 && y < 64 && z < 64;
    assert (lead == 0 ==> x >= 16) && (lead == 4 ==> x < 16);
    SixBits(lead, x, y, z);
    c := lead * 262144 + x * 4096 + y * 64 + z;
  }

  /** The bytes of a list of characters. */
  ghost predicate IsText(b: ByteString) {
    exists text: seq<Scalar> :: b == Concat(text, Encode)
  }

  /** Valid UTF-8 is exactly the bytes of a list of characters. */
  lemma Utf8IsCharacters(b: ByteString)
    ensures ValidUtf8(b) <==> IsText(b)
  {
    if ValidUtf8(b) {
      var text := CharactersOf(b);
    }
    if IsText(b) {
      var text: seq<Scalar> :| b == Concat(text, Encode);
      CharactersAreValid(text);
    }
  }

  lemma {:induction false} CharactersOf(b: ByteString) returns (text: seq<Scalar>)
    requires ValidUtf8(b)
    ensures b == Concat(text, Encode)
    decreases |b|
  {
    if b == [] {
      text := [];
    } else {
      var c := ReadIsEncoded(b);
      var tail := b[CharLength(b)..];
      assert b == Encode(c) + tail && ValidUtf8(tail);
      hide CharLength, Encode, ValidUtf8;
      var rest := CharactersOf(tail);
      text := [c] + rest;
      assert text[1..] == rest;
    }
  }

  lemma {:induction false} CharactersAreValid(text: seq<Scalar>)
    ensures ValidUtf8(Concat(text, Encode))
  {
    if text != [] {
      CharactersAreValid(text[1..]);
      EncodedIsRead(text[0], Concat(text[1..], Encode));
      hide CharLength, Encode;
    }
  }

  /* ---------------------------------------------------------------- Boundaries */

  predicate IsBoundary(b: ByteString, i: nat)
    requires i <= |b|
  {
    i == 0 || i == |b| || !IsContinuation(b[i])
  }

  /** Only its first byte of a character is no continuation. */
  lemma CharactersContinue(b: ByteString, i: nat)
    requires CharLength(b) > 0 && 0 < i < CharLength(b)
    ensures IsContinuation(b[i])
  {
  }

  lemma CharactersStart(b: ByteString)
    requires CharLength(b) > 0
    ensures !IsContinuation(b[0])
  {
  }

  lemma {:induction false} BoundariesSplit(b: ByteString, i: nat)
    requires ValidUtf8(b) && i <= |b| && IsBoundary(b, i)
    ensures ValidUtf8(b[..i])
    decreases |b|
  {
    if 0 < i {
      var n := CharLength(b);
      if i < n {
        CharactersContinue(b, i);
      } else {
        var rest := b[n..];
        assert rest[..i - n] == b[..i][n..];
        assert i < |b| ==> rest[i - n] == b[i];
        BoundariesSplit(rest, i - n);
        assert CharLength(b[..i]) == n;
      }
    }
  }

  lemma {:induction false} BoundaryIsNear(b: ByteString, i: nat)
    requires ValidUtf8(b) && i <= |b|
    ensures exists k | 0 <= k <= i && i <= k + 3 :: IsBoundary(b, k)
    decreases |b|
  {
    if b == [] {
      assert IsBoundary(b, 0);
    } else {
      var n := CharLength(b);
      if i < n {
        assert IsBoundary(b, 0);
      } else {
        var rest := b[n..];
        BoundaryIsNear(rest, i - n);
        var k :| 0 <= k <= i - n && i - n <= k + 3 && IsBoundary(rest, k);
        if 0 < k < |rest| {
          assert rest[k] == b[n + k];
        } else if k == 0 && rest != [] {
          CharactersStart(rest);
          assert rest[0] == b[n];
        }
        assert IsBoundary(b, n + k);
      }
    }
  }

  /** The longest whole characters that fit in `maximum` bytes; at most three bytes are given up. */
  method TruncateUtf8(value: ByteString, maximum: nat) returns (r: ByteString)
    requires ValidUtf8(value)
    ensures r <= value && |r| <= maximum && ValidUtf8(r)
    ensures |value| <= maximum ==> r == value
    ensures forall k: nat | |r| < k <= maximum && k <= |value| :: !IsBoundary(value, k)
    ensures |value| > maximum ==> |r| + 3 >= maximum
  {
    if |value| <= maximum { return value; }
    BoundaryIsNear(value, maximum);
    var end := maximum;
    while !IsBoundary(value, end)
      invariant end <= maximum
      invariant forall k: nat | end < k <= maximum :: !IsBoundary(value, k)
      decreases end
    {
      end := end - 1;
    }
    BoundariesSplit(value, end);
    r := value[..end];
  }

  /* ---------------------------------------------------------------- Paths and their owners */

  const COMPONENTS := TextBytes("components/")

  /** What precedes the first slash, if there is one. */
  function BeforeSlash(b: ByteString): Option<ByteString> {
    if b == [] then None
    else if b[0] == SLASH then Some([])
    else
      match BeforeSlash(b[1..])
      case None => None
      case Some(rest) => Some([b[0]] + rest)
  }

  /** The component that owns a path, if one does. */
  function ComponentPath(path: ByteString): Option<ByteString> {
    if !(COMPONENTS <= path) then None
    else
      var component := BeforeSlash(path[|COMPONENTS|..]);
      if component == Some([]) then None else component
  }

  lemma {:induction false} BeforeSlashMeans(b: ByteString, c: ByteString)
    ensures BeforeSlash(b) == Some(c) <==>
            SLASH !in c && |c| < |b| && b[..|c|] == c && b[|c|] == SLASH
  {
    if b != [] && b[0] != SLASH {
      if c != [] {
        BeforeSlashMeans(b[1..], c[1..]);
        assert c == [c[0]] + c[1..] && b == [b[0]] + b[1..];
        assert |c| < |b| ==> b[..|c|] == [b[0]] + b[1..][..|c| - 1] && b[|c|] == b[1..][|c| - 1];
      }
    } else if b != [] && c != [] {
      assert |c| < |b| && b[..|c|] == c ==> c[0] == b[..|c|][0] == SLASH;
    }
  }

  /** A component owns exactly the paths below its own directory. */
  lemma OwnersOwnTheirDirectory(path: ByteString, component: ByteString)
    ensures ComponentPath(path) == Some(component) <==>
            component != [] && SLASH !in component && COMPONENTS + component + [SLASH] <= path
  {
    var own := COMPONENTS + component + [SLASH];
    assert own <= path ==> path[..|COMPONENTS|] == own[..|COMPONENTS|] == COMPONENTS;
    if COMPONENTS <= path {
      var rest := path[|COMPONENTS|..];
      assert path == COMPONENTS + rest;
      BeforeSlashMeans(rest, component);
      if own <= path {
        assert path[..|own|] == own;
        assert rest[..|component|] == component && rest[|component|] == SLASH;
      }
      if |component| < |rest| && rest[..|component|] == component && rest[|component|] == SLASH {
        assert path[..|own|] == own;
      }
    }
    hide COMPONENTS;
  }

  /* ---------------------------------------------------------------- The stream */

  datatype Status = Added | Modified | Deleted | Other(text: ByteString)

  datatype ReviewError = Unsupported(text: ByteString) | Malformed

  type Change = (Status, ByteString)

  const A: ByteString := [65]
  const D: ByteString := [68]
  const M: ByteString := [77]

  function StatusOf(text: ByteString): Status {
    if text == A then Added
    else if text == M then Modified
    else if text == D then Deleted
    else Other(text)
  }

  function StatusText(status: Status): ByteString {
    match status
    case Added => A
    case Modified => M
    case Deleted => D
    case Other(text) => text
  }

  /** Splitting at NUL bytes. */
  function Split(b: ByteString): (parts: seq<ByteString>)
    ensures |parts| > 0
  {
    if b == [] then [[]]
    else
      var rest := Split(b[1..]);
      if b[0] == 0 then [[]] + rest else [[b[0]] + rest[0]] + rest[1..]
  }

  function NonEmpty(parts: seq<ByteString>): seq<ByteString> {
    if parts == [] then []
    else (if parts[0] == [] then [] else [parts[0]]) + NonEmpty(parts[1..])
  }

  function Fields(stream: ByteString): seq<ByteString> {
    NonEmpty(Split(stream))
  }

  /** Reading fields as statuses and paths. */
  function Changes(fields: seq<ByteString>): Result<seq<Change>, ReviewError> {
    if fields == [] then Ok([])
    else if |fields| == 1 || !ValidUtf8(fields[0]) || !ValidUtf8(fields[1]) then Err(Malformed)
    else if StatusOf(fields[0]).Other? then Err(Unsupported(fields[0]))
    else
      match Changes(fields[2..])
      case Err(error) => Err(error)
      case Ok(rest) => Ok([(StatusOf(fields[0]), fields[1])] + rest)
  }

  /* ---------------------------------------------------------------- The projection */

  datatype ArtifactChanges = ArtifactChanges(
    created: seq<ByteString>, changed: seq<ByteString>, destroyed: seq<ByteString>)

  const NO_CHANGES := ArtifactChanges([], [], [])

  datatype Summary = Summary(component: ByteString, changes: ArtifactChanges)

  datatype Projection = Projection(components: seq<Summary>, environment: ArtifactChanges)

  function SummaryKey(s: Summary): ByteString {
    s.component
  }

  /** The paths of one status and owner, in stream order. */
  function Bucket(changes: seq<Change>, owner: Option<ByteString>, status: Status): seq<ByteString> {
    if changes == [] then []
    else
      var last := changes[|changes| - 1];
      Bucket(changes[..|changes| - 1], owner, status) +
      if last.0 == status && ComponentPath(last.1) == owner then [last.1] else []
  }

  function ChangesOf(changes: seq<Change>, owner: Option<ByteString>): ArtifactChanges {
    ArtifactChanges(Bucket(changes, owner, Added), Bucket(changes, owner, Modified),
                    Bucket(changes, owner, Deleted))
  }

  /** The requested components, and every component with a change. */
  function Owners(names: seq<ByteString>, changes: seq<Change>): set<ByteString> {
    (set name | name in names) +
    set change | change in changes && ComponentPath(change.1).Some? :: ComponentPath(change.1).value
  }

  ghost predicate Projects(names: seq<ByteString>, changes: seq<Change>, p: Projection) {
    Sorted(p.components, SummaryKey) &&
    (forall component :: (exists s | s in p.components :: s.component == component) <==>
       component in Owners(names, changes)) &&
    (forall s | s in p.components :: s.changes == ChangesOf(changes, Some(s.component))) &&
    p.environment == ChangesOf(changes, None)
  }

  function Push(changes: ArtifactChanges, status: Status, path: ByteString): ArtifactChanges {
    match status
    case Added => changes.(created := changes.created + [path])
    case Modified => changes.(changed := changes.changed + [path])
    case Deleted => changes.(destroyed := changes.destroyed + [path])
    case Other(_) => changes
  }

  /** The buckets so far: one for every owner, and the environment's. */
  ghost predicate Collects(names: seq<ByteString>, changes: seq<Change>,
                           components: map<ByteString, ArtifactChanges>,
                           environment: ArtifactChanges)
  {
    components.Keys == Owners(names, changes) &&
    (forall c | c in components :: components[c] == ChangesOf(changes, Some(c))) &&
    environment == ChangesOf(changes, None)
  }

  lemma NobodyOwnsNothing(changes: seq<Change>, owner: Option<ByteString>)
    requires forall change | change in changes :: ComponentPath(change.1) != owner
    ensures ChangesOf(changes, owner) == NO_CHANGES
  {
    if changes != [] {
      var front := changes[..|changes| - 1];
      assert changes[|changes| - 1] in changes;
      NobodyOwnsNothing(front, owner);
    }
  }

  lemma PushNext(changes: seq<Change>, change: Change, owner: Option<ByteString>)
    requires !change.0.Other?
    ensures ChangesOf(changes + [change], owner) ==
            if ComponentPath(change.1) == owner then
              Push(ChangesOf(changes, owner), change.0, change.1)
            else ChangesOf(changes, owner)
  {
    assert (changes + [change])[..|changes|] == changes;
    hide ComponentPath;
  }

  lemma CollectNext(names: seq<ByteString>, changes: seq<Change>,
                    components: map<ByteString, ArtifactChanges>, environment: ArtifactChanges,
                    change: Change)
    requires Collects(names, changes, components, environment) && !change.0.Other?
    ensures var owner := ComponentPath(change.1);
            if owner.None? then
              Collects(names, changes + [change], components,
                       Push(environment, change.0, change.1))
            else
              var before := if owner.value in components then components[owner.value]
                            else NO_CHANGES;
              Collects(names, changes + [change],
                       components[owner.value := Push(before, change.0, change.1)], environment)
  {
    var owner := ComponentPath(change.1);
    var all := changes + [change];
    forall c: ByteString
      ensures ChangesOf(all, Some(c)) ==
        if owner == Some(c) then Push(ChangesOf(changes, Some(c)), change.0, change.1)
        else ChangesOf(changes, Some(c))
    {
      PushNext(changes, change, Some(c));
    }
    PushNext(changes, change, None);
    assert Owners(names, all) ==
           Owners(names, changes) + (if owner.Some? then {owner.value} else {}) by {
      hide ComponentPath;
      OwnersNext(names, changes, change);
    }
    if owner.Some? && owner.value !in components {
      forall other | other in changes
        ensures ComponentPath(other.1) != owner
      {
        assert ComponentPath(other.1).Some? ==>
          ComponentPath(other.1).value in Owners(names, changes);
      }
      NobodyOwnsNothing(changes, owner);
    }
    hide ComponentPath, ChangesOf, Owners, Push;
  }

  lemma OwnersNext(names: seq<ByteString>, changes: seq<Change>, change: Change)
    ensures Owners(names, changes + [change]) ==
            Owners(names, changes) +
            (if ComponentPath(change.1).Some? then {ComponentPath(change.1).value} else {})
  {
    hide ComponentPath;
  }

  /** The components in the order of their names. */
  method ListComponents(components: map<ByteString, ArtifactChanges>) returns (list: seq<Summary>)
    ensures Sorted(list, SummaryKey)
    ensures forall s :: s in list <==> s.component in components && s.changes == components[s.component]
  {
    list := [];
    var left := components.Keys;
    while left != {}
      invariant left <= components.Keys && Sorted(list, SummaryKey)
      invariant forall s :: s in list <==>
                  s.component in components && s.component !in left &&
                  s.changes == components[s.component]
      decreases |left|
    {
      var name :| name in left;
      left := left - {name};
      var summary := Summary(name, components[name]);
      InsertSummary(list, summary);
      list := InsertUnique(list, summary, SummaryKey).value;
    }
  }

  lemma InsertSummary(list: seq<Summary>, s: Summary)
    requires Sorted(list, SummaryKey) && forall other | other in list :: other.component != s.component
    ensures var r := InsertUnique(list, s, SummaryKey);
            r.Some? && Sorted(r.value, SummaryKey) &&
            forall other :: other in r.value <==> other == s || other in list
  {
    InsertUniqueKeepsOrder(list, s, SummaryKey);
    forall j | 0 <= j < |list|
      ensures SummaryKey(list[j]) != SummaryKey(s)
    {
      assert list[j] in list;
    }
    var r := InsertUnique(list, s, SummaryKey).value;
    forall other
      ensures other in r <==> other == s || other in list
    {
      assert other in r <==> other in multiset(r);
      assert other in list <==> other in multiset(list);
    }
  }

  lemma NothingCollected(names: seq<ByteString>)
    ensures Collects(names, [], map name | name in names :: NO_CHANGES, NO_CHANGES)
  {
  }

  lemma CollectedProjects(names: seq<ByteString>, changes: seq<Change>,
                          components: map<ByteString, ArtifactChanges>,
                          environment: ArtifactChanges, list: seq<Summary>)
    requires Collects(names, changes, components, environment) && Sorted(list, SummaryKey)
    requires forall s :: s in list <==>
               s.component in components && s.changes == components[s.component]
    ensures Projects(names, changes, Projection(list, environment))
  {
    forall component
      ensures (exists s | s in list :: s.component == component) <==> component in components
    {
      if component in components {
        assert Summary(component, components[component]) in list;
      }
    }
    hide ChangesOf, Owners;
  }

  /** What is still to come completes what is done. */
  ghost predicate Completes(fields: seq<ByteString>, done: seq<Change>, i: nat)
    requires i <= |fields|
  {
    match Changes(fields[i..])
    case Err(error) => Changes(fields) == Err(error)
    case Ok(more) => Changes(fields) == Ok(done + more)
  }

  lemma CompletesStart(fields: seq<ByteString>)
    ensures Completes(fields, [], 0)
  {
    assert fields[0..] == fields;
    var all := Changes(fields);
    if all.Ok? {
      assert [] + all.value == all.value;
    }
  }

  /** One more status and path, or the error they are. */
  lemma CompletesNext(fields: seq<ByteString>, done: seq<Change>, i: nat)
    requires i < |fields| && Completes(fields, done, i)
    ensures if i + 1 == |fields| || !ValidUtf8(fields[i]) || !ValidUtf8(fields[i + 1]) then
              Changes(fields) == Err(Malformed)
            else if StatusOf(fields[i]).Other? then
              Changes(fields) == Err(Unsupported(fields[i]))
            else Completes(fields, done + [(StatusOf(fields[i]), fields[i + 1])], i + 2)
  {
    if i + 2 <= |fields| {
      assert fields[i..][2..] == fields[i + 2..];
      var next := (StatusOf(fields[i]), fields[i + 1]);
      var later := Changes(fields[i + 2..]);
      if later.Ok? {
        assert done + ([next] + later.value) == done + [next] + later.value;
      }
    }
    hide ValidUtf8, StatusOf;
  }

  lemma CompletesEnd(fields: seq<ByteString>, done: seq<Change>, i: nat)
    requires i == |fields| && Completes(fields, done, i)
    ensures Changes(fields) == Ok(done)
  {
    assert done + [] == done;
  }

  /** Parse the stream into buckets, one for each component and one for the environment. */
  method FromNameStatus(names: seq<ByteString>, stream: ByteString)
    returns (r: Result<Projection, ReviewError>)
    ensures match Changes(Fields(stream))
            case Ok(changes) => r.Ok? && Projects(names, changes, r.value)
            case Err(error) => r == Err(error)
  {
    var components := map name | name in names :: NO_CHANGES;
    var environment := NO_CHANGES;
    var fields := Fields(stream);
    var i := 0;
    ghost var done: seq<Change> := [];
    NothingCollected(names);
    CompletesStart(fields);
    hide ValidUtf8, StatusOf, ComponentPath, Fields, Collects, Projects, Changes, Push, Completes;
    while i < |fields|
      invariant 0 <= i <= |fields|
      invariant Collects(names, done, components, environment)
      invariant Completes(fields, done, i)
      decreases |fields| - i
    {
      CompletesNext(fields, done, i);
      var status := fields[i];
      if i + 1 == |fields| { return Err(Malformed); }
      var path := fields[i + 1];
      if !ValidUtf8(status) || !ValidUtf8(path) { return Err(Malformed); }
      var kind := StatusOf(status);
      if kind.Other? { return Err(Unsupported(status)); }
      CollectNext(names, done, components, environment, (kind, path));
      var owner := ComponentPath(path);
      if owner.Some? {
        var before := if owner.value in components then components[owner.value] else NO_CHANGES;
        components := components[owner.value := Push(before, kind, path)];
      } else {
        environment := Push(environment, kind, path);
      }
      done := done + [(kind, path)];
      i := i + 2;
    }
    CompletesEnd(fields, done, i);
    var list := ListComponents(components);
    CollectedProjects(names, done, components, environment, list);
    r := Ok(Projection(list, environment));
  }

  /* ---------------------------------------------------------------- What the stream means */

  type Committed = map<ByteString, GitObject>

  /** How a path differs between two committed trees. */
  function StatusBetween(before: Committed, after: Committed, path: ByteString): Option<Status> {
    if path !in before && path !in after then None
    else if path !in before then Some(Added)
    else if path !in after then Some(Deleted)
    else if before[path] == after[path] then None
    else if before[path].Blob? == after[path].Blob? then Some(Modified)
    else Some(Other(T))
  }

  const T: ByteString := [84]

  /** The differing paths, each once, in the order in which Git prints them. */
  ghost predicate IsDiff(before: Committed, after: Committed, changes: seq<Change>) {
    (forall i, j | 0 <= i < j < |changes| :: changes[i].1 != changes[j].1) &&
    forall change: Change :: change in changes <==>
      StatusBetween(before, after, change.1) == Some(change.0)
  }

  /** Git's stream: for each change its status and its path, each ended by a NUL byte. */
  function Print(changes: seq<Change>): ByteString {
    if changes == [] then []
    else StatusText(changes[0].0) + [0] + changes[0].1 + [0] + Print(changes[1..])
  }

  predicate IsField(b: ByteString) {
    b != [] && 0 !in b
  }

  lemma {:induction false} SplitField(field: ByteString, rest: ByteString)
    requires 0 !in field
    ensures Split(field + [0] + rest) == [field] + Split(rest)
  {
    var whole := field + [0] + rest;
    if field == [] {
      assert whole[1..] == rest;
    } else {
      assert whole[1..] == field[1..] + [0] + rest;
      SplitField(field[1..], rest);
      assert field == [field[0]] + field[1..];
      assert ([field[1..]] + Split(rest))[1..] == Split(rest);
    }
  }

  lemma FieldsOf(field: ByteString, rest: ByteString)
    requires IsField(field)
    ensures Fields(field + [0] + rest) == [field] + Fields(rest)
  {
    SplitField(field, rest);
    assert ([field] + Split(rest))[1..] == Split(rest);
  }

  function Flat(changes: seq<Change>): seq<ByteString> {
    if changes == [] then []
    else [StatusText(changes[0].0), changes[0].1] + Flat(changes[1..])
  }

  lemma {:induction false} PrintedFields(changes: seq<Change>)
    requires forall change | change in changes ::
               IsField(StatusText(change.0)) && IsField(change.1)
    ensures Fields(Print(changes)) == Flat(changes)
  {
    if changes != [] {
      var status, path, rest := StatusText(changes[0].0), changes[0].1, Print(changes[1..]);
      assert changes[0] in changes;
      PrintedFields(changes[1..]);
      assert Print(changes) == status + [0] + (path + [0] + rest);
      hide Print, Fields, StatusText, IsField;
      FieldsOf(path, rest);
      FieldsOf(status, path + [0] + rest);
    }
  }

  /** The change can be projected: its path is text and its status is one of the three. */
  predicate Readable(change: Change) {
    ValidUtf8(change.1) && !change.0.Other?
  }

  /** What is wrong with a change that cannot be projected. */
  function Fault(change: Change): ReviewError {
    if ValidUtf8(change.1) then Unsupported(StatusText(change.0)) else Malformed
  }

  /** The first change that cannot be projected, if there is one. */
  predicate IsFirstFault(changes: seq<Change>, i: nat) {
    i <= |changes| && (forall j | 0 <= j < i :: Readable(changes[j])) &&
    (i < |changes| ==> !Readable(changes[i]))
  }

  /** Printing and parsing: the changes again, or the fault of the first one that has a fault. */
  lemma {:induction false} PrintedParses(changes: seq<Change>, i: nat)
    requires forall change | change in changes :: change.0.Other? ==> change.0 == Other(T)
    requires IsFirstFault(changes, i)
    ensures Changes(Flat(changes)) ==
            if i == |changes| then Ok(changes) else Err(Fault(changes[i]))
  {
    if changes != [] {
      var first, later, fields := changes[0], changes[1..], Flat(changes);
      assert first in changes && fields[2..] == Flat(later);
      hide ValidUtf8, Readable, Fault;
      FaultOfFirst(first, fields);
      if i > 0 {
        assert i < |changes| ==> later[i - 1] == changes[i];
        PrintedParses(later, i - 1);
        assert changes == [first] + later;
      }
    }
  }

  lemma FaultOfFirst(first: Change, fields: seq<ByteString>)
    requires first.0.Other? ==> first.0 == Other(T)
    requires |fields| >= 2 && fields[0] == StatusText(first.0) && fields[1] == first.1
    ensures if Readable(first) then
              Changes(fields) ==
              match Changes(fields[2..])
              case Err(error) => Err(error)
              case Ok(rest) => Ok([first] + rest)
            else Changes(fields) == Err(Fault(first))
  {
    StatusesRead(first.0);
    hide ValidUtf8;
  }

  lemma {:induction false} FirstFault(changes: seq<Change>) returns (i: nat)
    ensures IsFirstFault(changes, i)
  {
    if changes == [] || !Readable(changes[0]) {
      i := 0;
    } else {
      var k := FirstFault(changes[1..]);
      i := k + 1;
      assert forall j | 0 < j < |changes| :: changes[j] == changes[1..][j - 1];
    }
    hide Readable;
  }

  lemma StatusesRead(status: Status)
    requires status.Other? ==> status == Other(T)
    ensures ValidUtf8(StatusText(status)) && StatusOf(StatusText(status)) == status
    ensures IsField(StatusText(status))
  {
    var text := StatusText(status);
    assert text in [A, D, M, T];
    assert CharLength(text) == 1 && text[1..] == [];
  }

  lemma {:induction false} InBucket(changes: seq<Change>, owner: Option<ByteString>, status: Status,
                                    path: ByteString)
    ensures path in Bucket(changes, owner, status) <==>
            (status, path) in changes && ComponentPath(path) == owner
  {
    if changes != [] {
      var front, last := changes[..|changes| - 1], changes[|changes| - 1];
      assert changes == front + [last];
      InBucket(front, owner, status, path);
    }
    hide ComponentPath;
  }

  function BucketOf(a: ArtifactChanges, status: Status): seq<ByteString> {
    match status
    case Added => a.created
    case Modified => a.changed
    case Deleted => a.destroyed
    case Other(_) => []
  }

  /** A path is in the bucket of its status. */
  predicate IsIn(a: ArtifactChanges, status: Status, path: ByteString) {
    path in BucketOf(a, status)
  }

  /** The paths of one status anywhere in a projection. */
  function Paths(p: Projection, status: Status): set<ByteString> {
    (set path | path in BucketOf(p.environment, status)) +
    set s, path | s in p.components && path in BucketOf(s.changes, status) :: path
  }

  /**
   * What a projection says about two trees: each path is in the bucket of its difference, of its
   * owner, and in no other; every difference is somewhere; and the components are in the order of
   * their names and cover the requested ones.
   */
  ghost predicate Means(before: Committed, after: Committed, names: seq<ByteString>, p: Projection) {
    Sorted(p.components, SummaryKey) &&
    (forall name | name in names :: exists s | s in p.components :: s.component == name) &&
    (forall path: ByteString, status: Status | !status.Other? ::
       (IsIn(p.environment, status, path) <==>
         StatusBetween(before, after, path) == Some(status) && ComponentPath(path).None?)) &&
    (forall s: Summary, path: ByteString, status: Status |
       s in p.components && !status.Other? ::
       (IsIn(s.changes, status, path) <==>
         StatusBetween(before, after, path) == Some(status) &&
         ComponentPath(path) == Some(s.component))) &&
    (forall status: Status, path: ByteString | !status.Other? ::
       (path in Paths(p, status) <==> StatusBetween(before, after, path) == Some(status))) &&
    after.Keys == before.Keys - Paths(p, Deleted) + Paths(p, Added)
  }

  /** Every difference can be projected: its path is text, and it is no change of file type. */
  ghost predicate Projectable(before: Committed, after: Committed) {
    forall path | StatusBetween(before, after, path).Some? ::
      ValidUtf8(path) && !StatusBetween(before, after, path).value.Other?
  }

  /**
   * The projection means the diff. Take any two committed trees, print their differences, and parse
   * what was printed. The projection exists exactly if every difference can be projected, and then it
   * means the differences of the two trees. Otherwise the parse fails with the fault of some
   * difference: a path that is no text, or a change between a regular file and something else.
   */
  method ProjectDiff(before: Committed, after: Committed, changes: seq<Change>,
                     names: seq<ByteString>)
    returns (r: Result<Projection, ReviewError>)
    requires IsDiff(before, after, changes)
    requires forall path | path in before.Keys + after.Keys :: IsField(path)
    ensures r.Ok? <==> Projectable(before, after)
    ensures r.Ok? ==> Means(before, after, names, r.value)
    ensures r.Err? ==>
              exists change: Change ::
                StatusBetween(before, after, change.1) == Some(change.0) && !Readable(change) &&
                r.error == Fault(change)
  {
    hide ValidUtf8, ComponentPath, Projects, Fields, Print, Changes, Flat, Means, StatusBetween,
         IsDiff, Projectable, Readable, Fault;
    DiffPrints(before, after, changes);
    ReadableIsProjectable(before, after, changes);
    PrintedFields(changes);
    ghost var i := FirstFault(changes);
    PrintedParses(changes, i);
    r := FromNameStatus(names, Print(changes));
    if r.Ok? {
      DiffIsMeant(before, after, changes, names, r.value);
    } else {
      DiffHolds(before, after, changes, changes[i]);
    }
  }

  lemma DiffHolds(before: Committed, after: Committed, changes: seq<Change>, change: Change)
    requires IsDiff(before, after, changes) && change in changes
    ensures StatusBetween(before, after, change.1) == Some(change.0)
  {
  }

  lemma ReadableIsProjectable(before: Committed, after: Committed, changes: seq<Change>)
    requires IsDiff(before, after, changes)
    ensures (forall change | change in changes :: Readable(change)) <==> Projectable(before, after)
  {
    hide ValidUtf8, StatusBetween;
    if forall change | change in changes :: Readable(change) {
      forall path | StatusBetween(before, after, path).Some?
        ensures ValidUtf8(path) && !StatusBetween(before, after, path).value.Other?
      {
        assert Readable((StatusBetween(before, after, path).value, path));
      }
    }
    if Projectable(before, after) {
      forall change | change in changes
        ensures Readable(change)
      {
        assert StatusBetween(before, after, change.1) == Some(change.0);
      }
    }
  }

  lemma DiffIsMeant(before: Committed, after: Committed, changes: seq<Change>,
                    names: seq<ByteString>, p: Projection)
    requires IsDiff(before, after, changes) && Projects(names, changes, p)
    ensures Means(before, after, names, p)
  {
    ProjectionMeans(before, after, changes, names, p);
    ProjectionIsComplete(before, after, changes, names, p);
    hide StatusBetween, ComponentPath, IsIn, Paths, IsDiff;
  }

  lemma DiffPrints(before: Committed, after: Committed, changes: seq<Change>)
    requires IsDiff(before, after, changes)
    requires forall path | path in before.Keys + after.Keys :: IsField(path)
    ensures forall change | change in changes ::
              (change.0.Other? ==> change.0 == Other(T)) &&
              IsField(StatusText(change.0)) && IsField(change.1)
  {
    forall change | change in changes
      ensures (change.0.Other? ==> change.0 == Other(T)) &&
              IsField(StatusText(change.0)) && IsField(change.1)
    {
      assert StatusBetween(before, after, change.1) == Some(change.0);
      assert change.1 in before.Keys + after.Keys;
      StatusesRead(change.0);
    }
    hide IsField;
  }

  lemma ProjectionMeans(before: Committed, after: Committed, changes: seq<Change>,
                        names: seq<ByteString>, p: Projection)
    requires IsDiff(before, after, changes) && Projects(names, changes, p)
    ensures forall name | name in names :: exists s | s in p.components :: s.component == name
    ensures forall path: ByteString, status: Status | !status.Other? ::
              (IsIn(p.environment, status, path) <==>
                StatusBetween(before, after, path) == Some(status) && ComponentPath(path).None?)
    ensures forall s: Summary, path: ByteString, status: Status |
              s in p.components && !status.Other? ::
              (IsIn(s.changes, status, path) <==>
                StatusBetween(before, after, path) == Some(status) &&
                ComponentPath(path) == Some(s.component))
  {
    forall path: ByteString, status: Status | !status.Other?
      ensures IsIn(p.environment, status, path) <==>
              StatusBetween(before, after, path) == Some(status) && ComponentPath(path).None?
    {
      InBucket(changes, None, status, path);
      assert (status, path) in changes <==> StatusBetween(before, after, path) == Some(status);
    }
    forall s: Summary, path: ByteString, status: Status | s in p.components && !status.Other?
      ensures IsIn(s.changes, status, path) <==>
              StatusBetween(before, after, path) == Some(status) &&
              ComponentPath(path) == Some(s.component)
    {
      InBucket(changes, Some(s.component), status, path);
      assert (status, path) in changes <==> StatusBetween(before, after, path) == Some(status);
    }
    forall name | name in names
      ensures exists s | s in p.components :: s.component == name
    {
      assert name in Owners(names, changes);
    }
    hide ComponentPath, Bucket, Sorted;
  }

  /** Every differing path is in some bucket of its status. */
  lemma ProjectionIsComplete(before: Committed, after: Committed, changes: seq<Change>,
                             names: seq<ByteString>, p: Projection)
    requires IsDiff(before, after, changes) && Projects(names, changes, p)
    ensures forall status: Status, path: ByteString | !status.Other? ::
              (path in Paths(p, status) <==> StatusBetween(before, after, path) == Some(status))
    ensures after.Keys == before.Keys - Paths(p, Deleted) + Paths(p, Added)
  {
    ProjectionMeans(before, after, changes, names, p);
    forall status: Status, path: ByteString | !status.Other?
      ensures path in Paths(p, status) <==> StatusBetween(before, after, path) == Some(status)
    {
      var owner := ComponentPath(path);
      if StatusBetween(before, after, path) == Some(status) {
        var change: Change := (status, path);
        assert change in changes;
        if owner.None? {
          assert IsIn(p.environment, status, path);
        } else {
          assert owner.value in Owners(names, changes) by {
            OwnerOfChange(names, changes, change);
          }
          var s :| s in p.components && s.component == owner.value;
          assert IsIn(s.changes, status, path);
        }
      }
      if path in Paths(p, status) {
        if !IsIn(p.environment, status, path) {
          var s :| s in p.components && path in BucketOf(s.changes, status);
          assert IsIn(s.changes, status, path);
        } else {
          assert StatusBetween(before, after, path) == Some(status);
        }
      }
    }
    hide ComponentPath, Projects, IsDiff, Paths, BucketOf, Owners;
    forall path
      ensures path in after <==>
        (path in before && StatusBetween(before, after, path) != Some(Deleted)) ||
        StatusBetween(before, after, path) == Some(Added)
    {
    }
  }

  lemma OwnerOfChange(names: seq<ByteString>, changes: seq<Change>, change: Change)
    requires change in changes && ComponentPath(change.1).Some?
    ensures ComponentPath(change.1).value in Owners(names, changes)
  {
    hide ComponentPath;
  }
}
