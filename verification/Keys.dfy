/** Upload filenames, object keys and the identifiers they lead back to. */
module Keys {
  import opened Wrappers
  import opened Table
  import Storage

  const OBJECT_PREFIX := "_objects/"
  const MIN_INT64 := -0x8000_0000_0000_0000

  // ---------------------------------------------------------------- decimal text

  function Digit(d: nat): char
    requires d < 10
  {
    '0' + d as char
  }

  function DecimalText(n: nat): string {
    if n < 10 then [Digit(n)] else DecimalText(n / 10) + [Digit(n % 10)]
  }

  predicate IsDigit(c: char) { '0' <= c <= '9' }

  predicate AllDigits(text: string) {
    text != "" && forall i | 0 <= i < |text| :: IsDigit(text[i])
  }

  function DigitsValue(text: string): nat {
    if text == "" then 0
    else
      10 * DigitsValue(text[..|text| - 1]) + if IsDigit(text[|text| - 1]) then (text[|text| - 1] - '0') as nat else 0
  }

  /** `strconv.ParseInt(text, 10, 64)`: an optional sign, digits, and a 64-bit range. */
  function ParseInt(text: string): Option<int> {
    var signed := text != "" && (text[0] == '+' || text[0] == '-');
    var digits := if signed then text[1..] else text;
    if !AllDigits(digits) then None
    else
      var magnitude: int := DigitsValue(digits);
      var value := if signed && text[0] == '-' then -magnitude else magnitude;
      if MIN_INT64 <= value <= MAX_ID then Some(value) else None
  }

  lemma {:induction false} DecimalRoundTrip(n: nat)
    ensures AllDigits(DecimalText(n)) && DigitsValue(DecimalText(n)) == n
  {
    if n >= 10 {
      DecimalRoundTrip(n / 10);
      assert DecimalText(n)[..|DecimalText(n)| - 1] == DecimalText(n / 10);
    } else {
      assert DecimalText(n)[..0] == "";
    }
  }

  // ----------------------------------------------------------------------- keys

  /** Where the bytes of a new object live. */
  function ObjectKey(id: int, filename: string): string {
    OBJECT_PREFIX + (if id < 0 then "-" + DecimalText(-id) else DecimalText(id)) + "/" + filename
  }

  /** The position of the first `c`, or the length of the text. */
  function IndexOf(text: string, c: char): (i: nat)
    ensures i <= |text|
    ensures forall k | 0 <= k < i :: text[k] != c
    ensures i < |text| ==> text[i] == c
  {
    if text == "" || text[0] == c then 0 else 1 + IndexOf(text[1..], c)
  }

  /** The registry identifier that leads a key under the object prefix. */
  function OwnerId(key: string): Option<int> {
    if !(OBJECT_PREFIX <= key) then None
    else
      var rest := key[|OBJECT_PREFIX|..];
      var slash := IndexOf(rest, '/');
      if slash == |rest| then None else ParseInt(rest[..slash])
  }

  /** The identifier text of a key reads as this number, with a sign or without. */
  ghost predicate ReadsAs(text: string, id: int) {
    && MIN_INT64 <= id <= MAX_ID
    && exists sign, digits ::
         && text == sign + digits && AllDigits(digits)
         && ((sign in ["", "+"] && id == DigitsValue(digits)) || (sign == "-" && -id == DigitsValue(digits)))
  }

  lemma ParsesExactly(text: string, id: int)
    ensures ParseInt(text) == Some(id) <==> ReadsAs(text, id)
  {
    hide DigitsValue, AllDigits;
    if ParseInt(text) == Some(id) {
      if text != "" && (text[0] == '+' || text[0] == '-') {
        assert text == [text[0]] + text[1..];
      } else {
        assert text == "" + text;
      }
    }
    if ReadsAs(text, id) {
      var sign, digits :| text == sign + digits && AllDigits(digits)
                          && ((sign in ["", "+"] && id == DigitsValue(digits))
                              || (sign == "-" && -id == DigitsValue(digits)));
      if sign == "" {
        assert text == digits && IsDigit(text[0]) by {
        FirstDigit(digits);
      }
      } else {
        assert text[1..] == digits;
      }
    }
  }

  lemma FirstDigit(text: string)
    requires AllDigits(text)
    ensures text != "" && IsDigit(text[0])
  {
  }

  /** Which keys lead to an identifier: those whose first segment under the prefix reads as one. */
  lemma OwnerExactly(key: string, id: int)
    ensures OwnerId(key) == Some(id)
            <==> exists text, rest :: key == "_objects/" + text + "/" + rest && NoSlash(text) && ReadsAs(text, id)
  {
    hide ParseInt, ReadsAs, IndexOf;
    if OwnerId(key) == Some(id) {
      var rest := key[|OBJECT_PREFIX|..];
      var slash := IndexOf(rest, '/');
      ParsesExactly(rest[..slash], id);
      assert key == OBJECT_PREFIX + rest && rest[slash..] == "/" + rest[slash + 1..]
             && rest == rest[..slash] + rest[slash..];
      assert key == "_objects/" + rest[..slash] + "/" + rest[slash + 1..];
    }
    forall text, rest | key == "_objects/" + text + "/" + rest && NoSlash(text) && ReadsAs(text, id)
      ensures OwnerId(key) == Some(id)
    {
      CutKey(key, text, rest);
      ParsesExactly(text, id);
    }
  }

  lemma CutKey(key: string, text: string, rest: string)
    requires key == "_objects/" + text + "/" + rest && NoSlash(text)
    ensures OBJECT_PREFIX <= key
    ensures var left := key[|OBJECT_PREFIX|..]; IndexOf(left, '/') == |text| < |left| && left[..|text|] == text
  {
    hide IndexOf;
    var left := key[|OBJECT_PREFIX|..];
    assert left == text + "/" + rest;
    assert left[|text|] == '/' && forall i | 0 <= i < |text| :: left[i] == text[i];
  }

  /** A key parses back to the identifier it was made for, whatever the filename. */
  lemma KeyNamesOwner(id: int, filename: string)
    requires 1 <= id <= MAX_ID
    ensures OwnerId(ObjectKey(id, filename)) == Some(id)
  {
    hide IndexOf, DecimalText, DigitsValue;
    var text := DecimalText(id);
    DecimalRoundTrip(id);
    var rest := text + "/" + filename;
    assert ObjectKey(id, filename)[|OBJECT_PREFIX|..] == rest;
    assert OBJECT_PREFIX <= ObjectKey(id, filename);
    assert rest[|text|] == '/';
    var slash := IndexOf(rest, '/');
    assert forall k | 0 <= k < |text| :: rest[k] == text[k] && IsDigit(rest[k]);
    assert slash == |text|;
    assert rest[..slash] == text;
    assert !(text[0] == '+' || text[0] == '-') by {
      assert IsDigit(text[0]);
    }
  }

  /** Distinct identifiers, and distinct filenames of one identifier, have distinct keys. */
  lemma KeysDistinct(a: int, f: string, b: int, g: string)
    requires 1 <= a <= MAX_ID && 1 <= b <= MAX_ID && ObjectKey(a, f) == ObjectKey(b, g)
    ensures a == b && f == g
  {
    KeyNamesOwner(a, f);
    KeyNamesOwner(b, g);
    var lead := OBJECT_PREFIX + DecimalText(a) + "/";
    assert ObjectKey(a, f)[|lead|..] == f;
    assert ObjectKey(b, g)[|lead|..] == g;
  }

  /** The concrete scheme meets the law the lifecycle proofs rely on. */
  lemma SchemeMeetsLaw()
    ensures Storage.KeyLaw(ObjectKey, OwnerId)
  {
    forall id, filename | 1 <= id <= MAX_ID
      ensures OwnerId(ObjectKey(id, filename)) == Some(id) && NotBlank(ObjectKey(id, filename))
    {
      KeyNamesOwner(id, filename);
      assert ObjectKey(id, filename)[0] == '_';
    }
  }

  function Repeat(c: char, n: nat): string {
    seq(n, _ => c)
  }

  /** The assumptions of the lifecycle proofs can be met together, with these very keys. */
  lemma AssumptionsMet(kind: Storage.Kind, ttl: Time, maxAge: Time)
    requires ttl > 0
    ensures Storage.EnvOk(Storage.Env(kind, _ => Repeat('0', 64), _ => Repeat('0', 16), _ => "", _ => "text/plain",
                                      ObjectKey, OwnerId, ttl, maxAge))
  {
    SchemeMeetsLaw();
  }

  // ------------------------------------------------------------------- filenames

  /** Unicode white space, as `strings.TrimSpace` trims it. */
  predicate IsSpace(c: char) {
    || '\t' <= c <= '\r' || c == ' ' || c == '\U{0085}' || c == '\U{00A0}' || c == '\U{1680}'
    || '\U{2000}' <= c <= '\U{200A}' || c == '\U{2028}' || c == '\U{2029}' || c == '\U{202F}'
    || c == '\U{205F}' || c == '\U{3000}'
  }

  function TrimLeft(text: string): string {
    if text != "" && IsSpace(text[0]) then TrimLeft(text[1..]) else text
  }

  function TrimRight(text: string): string {
    if text != "" && IsSpace(text[|text| - 1]) then TrimRight(text[..|text| - 1]) else text
  }

  function Replace(text: string, from: char, to: char): string {
    seq(|text|, i requires 0 <= i < |text| => if text[i] == from then to else text[i])
  }

  function StripSlashes(text: string): string {
    if text != "" && text[|text| - 1] == '/' then StripSlashes(text[..|text| - 1]) else text
  }

  function AfterLastSlash(text: string): string {
    if text == "" then ""
    else if text[|text| - 1] == '/' then ""
    else AfterLastSlash(text[..|text| - 1]) + [text[|text| - 1]]
  }

  /** `path.Base`. */
  function Base(path: string): string {
    if path == "" then "."
    else
      var name := AfterLastSlash(StripSlashes(path));
      if name == "" then "/" else name
  }

  function NormalizeFilename(name: string): string {
    TrimRight(TrimLeft(Base(Replace(name, '\\', '/'))))
  }

  predicate ValidFilename(name: string) {
    && name != "" && name != "." && name != ".." && name != "/"
    && forall i | 0 <= i < |name| :: name[i] >= ' ' && name[i] != '\U{007F}'
  }

  predicate NoSlash(text: string) {
    forall i | 0 <= i < |text| :: text[i] != '/'
  }

  lemma LastSegment(text: string)
    ensures NoSlash(AfterLastSlash(text))
  {
  }

  lemma TrimLeftKeeps(text: string)
    requires NoSlash(text)
    ensures NoSlash(TrimLeft(text))
  {
  }

  lemma TrimRightKeeps(text: string)
    requires NoSlash(text)
    ensures NoSlash(TrimRight(text))
  {
  }

  /** An accepted filename is one path segment: neither empty, nor a dot, nor with a slash. */
  lemma AcceptedIsSegment(name: string)
    requires ValidFilename(NormalizeFilename(name))
    ensures NoSlash(NormalizeFilename(name))
  {
    var path := Replace(name, '\\', '/');
    LastSegment(StripSlashes(path));
    assert TrimRight(TrimLeft("/")) == "/";
    TrimLeftKeeps(Base(path));
    TrimRightKeeps(TrimLeft(Base(path)));
  }

  predicate IsSlash(c: char) { c == '/' || c == '\\' }

  predicate AllSpaces(text: string) {
    forall i | 0 <= i < |text| :: IsSpace(text[i])
  }

  /**
   From `b` to `c` stands what is left of the name's last segment, which reaches
   from `a` to `d`, without the white space around it; only slashes follow.
   */
  ghost predicate LastSegmentAt(name: string, a: nat, b: nat, c: nat, d: nat) {
    && a <= b < c <= d <= |name|
    && (a == 0 || IsSlash(name[a - 1])) && (forall i | a <= i < d :: !IsSlash(name[i]))
    && (forall i | d <= i < |name| :: IsSlash(name[i]))
    && AllSpaces(name[a..b]) && AllSpaces(name[c..d]) && !IsSpace(name[b]) && !IsSpace(name[c - 1])
  }

  lemma {:induction false} StripsTo(text: string) returns (d: nat)
    ensures d <= |text| && StripSlashes(text) == text[..d] && forall i | d <= i < |text| :: text[i] == '/'
  {
    d := |text|;
    if text != "" && text[|text| - 1] == '/' {
      d := StripsTo(text[..|text| - 1]);
    } else {
      assert text[..d] == text;
    }
  }

  lemma {:induction false} LastFrom(text: string) returns (a: nat)
    ensures a <= |text| && AfterLastSlash(text) == text[a..] && (a == 0 || text[a - 1] == '/')
  {
    a := |text|;
    if text != "" && text[|text| - 1] != '/' {
      a := LastFrom(text[..|text| - 1]);
    }
  }

  lemma {:induction false} TrimsFrom(text: string) returns (b: nat)
    ensures b <= |text| && TrimLeft(text) == text[b..] && AllSpaces(text[..b]) && (b < |text| ==> !IsSpace(text[b]))
  {
    b := 0;
    if text != "" && IsSpace(text[0]) {
      b := TrimsFrom(text[1..]);
      assert text[1..][b..] == text[b + 1..];
      assert text[..b + 1] == [text[0]] + text[1..][..b];
      b := b + 1;
    }
  }

  lemma {:induction false} TrimsTo(text: string) returns (c: nat)
    ensures c <= |text| && TrimRight(text) == text[..c] && AllSpaces(text[c..]) && (c > 0 ==> !IsSpace(text[c - 1]))
  {
    c := |text|;
    if text != "" && IsSpace(text[|text| - 1]) {
      c := TrimsTo(text[..|text| - 1]);
      assert text[c..] == text[..|text| - 1][c..] + [text[|text| - 1]];
      assert text[..|text| - 1][..c] == text[..c];
    } else {
      assert text[..c] == text;
    }
  }

  /** An accepted filename is the trimmed last segment of the name it was given, and holds no control character. */
  lemma NormalizedExactly(name: string) returns (a: nat, b: nat, c: nat, d: nat)
    requires ValidFilename(NormalizeFilename(name))
    ensures LastSegmentAt(name, a, b, c, d) && NormalizeFilename(name) == name[b..c]
    ensures forall i | b <= i < c :: name[i] as int >= 0x20 && name[i] as int != 0x7f
  {
    hide ValidFilename, IsSpace, AllSpaces, NormalizeFilename, Base, StripSlashes, AfterLastSlash, TrimLeft, TrimRight;
    var path := Replace(name, '\\', '/');
    NotSpecial(name);
    var base := AfterLastSlash(StripSlashes(path));
    a, d := BaseAt(path);
    b, c := TrimmedAt(base);
    SameText(name, a, b, c, d);
    NoControls(name[a + b..a + c]);
    b, c := a + b, a + c;
    assert forall i | b <= i < c :: name[i] == name[b..c][i - b];
    assert name[b] == base[b - a] && name[c - 1] == base[c - a - 1];
    assert forall i | 0 <= i < |name| :: path[i] == '/' <==> IsSlash(name[i]);
    assert forall i | a <= i < d :: !IsSlash(name[i]);
    assert a == 0 || IsSlash(name[a - 1]);
    assert forall i | d <= i < |name| :: IsSlash(name[i]);
    assert AllSpaces(name[a..b]) && AllSpaces(name[c..d]);
    assert !IsSpace(name[b]) && !IsSpace(name[c - 1]);
  }

  /** Reading backslashes as slashes changes nothing between two of them. */
  lemma SameText(name: string, a: nat, b: nat, c: nat, d: nat)
    requires a <= d <= |name| && b < c <= d - a
    requires forall i | a <= i < d :: Replace(name, '\\', '/')[i] != '/'
    ensures var base := Replace(name, '\\', '/')[a..d];
            && base == name[a..d] && base[b..c] == name[a + b..a + c]
            && base[..b] == name[a..a + b] && base[c..] == name[a + c..d]
  {
    var base := Replace(name, '\\', '/')[a..d];
    assert forall i | 0 <= i < d - a :: base[i] == Replace(name, '\\', '/')[a + i] == name[a + i];
    assert base == name[a..d];
    assert name[a..d][b..c] == name[a + b..a + c];
    assert name[a..d][..b] == name[a..a + b];
    assert name[a..d][c..] == name[a + c..d];
  }

  lemma BaseAt(path: string) returns (a: nat, d: nat)
    ensures a <= d <= |path| && AfterLastSlash(StripSlashes(path)) == path[a..d]
    ensures (a == 0 || path[a - 1] == '/') && (forall i | a <= i < d :: path[i] != '/')
    ensures forall i | d <= i < |path| :: path[i] == '/'
  {
    d := StripsTo(path);
    a := LastFrom(path[..d]);
    LastSegment(path[..d]);
    assert path[..d][a..] == path[a..d];
    assert forall i | a <= i < d :: path[i] == path[a..d][i - a];
  }

  lemma TrimmedAt(text: string) returns (b: nat, c: nat)
    requires TrimRight(TrimLeft(text)) != ""
    ensures b < c <= |text| && TrimRight(TrimLeft(text)) == text[b..c]
    ensures AllSpaces(text[..b]) && AllSpaces(text[c..]) && !IsSpace(text[b]) && !IsSpace(text[c - 1])
  {
    hide IsSpace, TrimLeft, TrimRight;
    b := TrimsFrom(text);
    var kept := TrimsTo(text[b..]);
    c := b + kept;
    assert text[b..][..kept] == text[b..c] && text[b..][kept..] == text[c..];
  }

  lemma NotSpecial(name: string)
    requires ValidFilename(NormalizeFilename(name))
    ensures var path := Replace(name, '\\', '/');
            var base := AfterLastSlash(StripSlashes(path));
            NormalizeFilename(name) == TrimRight(TrimLeft(base)) && TrimRight(TrimLeft(base)) != ""
  {
    assert TrimRight(TrimLeft("/")) == "/";
    assert TrimRight(TrimLeft(".")) == ".";
  }

  lemma NoControls(name: string)
    requires ValidFilename(name)
    ensures forall i | 0 <= i < |name| :: name[i] as int >= 0x20 && name[i] as int != 0x7f
  {
  }

  // ------------------------------------------------------------------ file paths

  /** `strings.Split(text, "/")`. */
  function Split(text: string): (segments: seq<string>)
    ensures segments != []
    decreases |text|
  {
    var slash := IndexOf(text, '/');
    if slash == |text| then [text] else [text[..slash]] + Split(text[slash + 1..])
  }

  /** `filepath.Join` of segments without "..": empty and "." segments vanish. */
  function Clean(segments: seq<string>): seq<string> {
    if segments == [] then []
    else if segments[0] == "" || segments[0] == "." then Clean(segments[1..])
    else [segments[0]] + Clean(segments[1..])
  }

  /** The file a key names, as segments under `root`, or nothing for a traversing key. */
  function Resolve(root: seq<string>, key: string): Option<seq<string>> {
    if ".." in Split(key) then None else Some(root + Clean(Split(key)))
  }

  /** From `i` to `j` lies one whole segment of the text. */
  predicate SegmentAt(text: string, i: int, j: int) {
    && 0 <= i <= j <= |text|
    && (i == 0 || text[i - 1] == '/') && (j == |text| || text[j] == '/') && forall k | i <= k < j :: text[k] != '/'
  }

  ghost predicate HasSegment(text: string, segment: string) {
    exists i, j :: SegmentAt(text, i, j) && text[i..j] == segment
  }

  /** The segments of a text with a slash: what precedes the first one, and the segments of what follows. */
  lemma SegmentsFirst(text: string, slash: nat, segment: string)
    requires slash < |text| && text[slash] == '/' && forall k | 0 <= k < slash :: text[k] != '/'
    ensures HasSegment(text, segment) <==> segment == text[..slash] || HasSegment(text[slash + 1..], segment)
  {
    var rest := text[slash + 1..];
    assert SegmentAt(text, 0, slash) && text[0..slash] == text[..slash];
    if HasSegment(rest, segment) {
      var i, j :| SegmentAt(rest, i, j) && rest[i..j] == segment;
      SegmentShifted(text, slash, i, j);
    }
    if HasSegment(text, segment) {
      var i, j :| SegmentAt(text, i, j) && text[i..j] == segment;
      if i > slash {
        SegmentShifted(text, slash, i - slash - 1, j - slash - 1);
      }
    }
  }

  lemma SegmentShifted(text: string, slash: nat, i: int, j: int)
    requires slash < |text| && text[slash] == '/' && 0 <= i
    ensures SegmentAt(text[slash + 1..], i, j) <==> SegmentAt(text, slash + 1 + i, slash + 1 + j)
    ensures SegmentAt(text[slash + 1..], i, j) ==> text[slash + 1..][i..j] == text[slash + 1 + i..slash + 1 + j]
  {
    var rest := text[slash + 1..];
    assert forall k | 0 <= k < |rest| :: rest[k] == text[slash + 1 + k];
    assert forall k | slash < k < |text| :: text[k] == rest[k - slash - 1];
  }

  lemma {:induction false} SplitExactly(text: string, segment: string)
    ensures segment in Split(text) <==> HasSegment(text, segment)
    decreases |text|
  {
    hide IndexOf;
    var slash := IndexOf(text, '/');
    if slash == |text| {
      assert SegmentAt(text, 0, |text|) && text[0..|text|] == text;
      assert forall i, j | SegmentAt(text, i, j) :: i == 0 && j == |text|;
    } else {
      hide SegmentAt, HasSegment;
      SegmentsFirst(text, slash, segment);
      SplitExactly(text[slash + 1..], segment);
    }
  }

  lemma {:induction false} CleanExactly(segments: seq<string>, segment: string)
    ensures segment in Clean(segments) <==> segment in segments && segment != "" && segment != "."
  {
    if segments != [] {
      CleanExactly(segments[1..], segment);
    }
  }

  /**
   A key is refused exactly if one of its segments is "..".  Any other names a path
   under the root, made of its own segments and of no dot segment.
   */
  lemma ResolvesExactly(root: seq<string>, key: string)
    ensures Resolve(root, key).None? <==> HasSegment(key, "..")
    ensures Resolve(root, key).Some? ==>
              && root <= Resolve(root, key).value
              && forall segment :: segment in Resolve(root, key).value[|root|..]
                   <==> segment !in ["", ".", ".."] && HasSegment(key, segment)
  {
    hide Split, Clean, HasSegment;
    SplitExactly(key, "..");
    if Resolve(root, key).Some? {
      assert Resolve(root, key).value[|root|..] == Clean(Split(key));
      forall segment
        ensures segment in Clean(Split(key))
                <==> segment !in ["", ".", ".."] && HasSegment(key, segment)
      {
        CleanExactly(Split(key), segment);
        SplitExactly(key, segment);
      }
    }
  }

  /** Splitting at a slash after a segment. */
  lemma SplitSegment(segment: string, rest: string)
    requires NoSlash(segment)
    ensures Split(segment + "/" + rest) == [segment] + Split(rest)
  {
    var text := segment + "/" + rest;
    assert text[|segment|] == '/';
    assert forall k | 0 <= k < |segment| :: text[k] == segment[k];
    assert IndexOf(text, '/') == |segment|;
    assert text[..|segment|] == segment && text[|segment| + 1..] == rest;
  }

  lemma CleanKeeps(segments: seq<string>)
    requires forall i | 0 <= i < |segments| :: segments[i] != "" && segments[i] != "."
    ensures Clean(segments) == segments
  {
  }

  lemma SplitLast(segment: string)
    requires NoSlash(segment)
    ensures Split(segment) == [segment]
  {
  }

  /** The file store resolves every key of an accepted filename to its own path under the root. */
  lemma AcceptedResolves(root: seq<string>, id: int, name: string)
    requires 1 <= id <= MAX_ID && ValidFilename(NormalizeFilename(name))
    ensures Resolve(root, ObjectKey(id, NormalizeFilename(name)))
            == Some(root + ["_objects", DecimalText(id), NormalizeFilename(name)])
  {
    hide NormalizeFilename, DecimalText, Split, Clean, IndexOf;
    var filename := NormalizeFilename(name);
    var text := DecimalText(id);
    AcceptedIsSegment(name);
    DecimalSegment(id);
    SplitLast(filename);
    SplitSegment(text, filename);
    SplitSegment("_objects", text + "/" + filename);
    assert ObjectKey(id, filename) == "_objects" + "/" + (text + "/" + filename);
    var segments := ["_objects", text, filename];
    assert Split(ObjectKey(id, filename)) == segments;
    assert ".." !in segments;
    CleanKeeps(segments);
  }

  lemma DecimalSegment(n: nat)
    ensures var text := DecimalText(n); NoSlash(text) && text != "" && text != "." && text != ".."
  {
    DecimalRoundTrip(n);
    assert IsDigit(DecimalText(n)[0]);
    assert forall i | 0 <= i < |DecimalText(n)| :: IsDigit(DecimalText(n)[i]);
  }
}
