// Mounted file names: src/immich_on_demand/model.py, and the collision search
// of src/immich_on_demand/catalog.py.
//
// Names are taken to be in Unicode normalisation form C already, and
// identifiers are the canonical text of a UUID.
module Names {
  import opened Options
  import opened Utf8

  // Every caller of this model leaves the byte limit at its default.
  const LIMIT: nat := 255

  predicate HexDigit(c: char) {
    '0' <= c <= '9' || 'a' <= c <= 'f'
  }

  predicate CanonicalId(id: string) {
    && |id| == 36
    && (forall i | 0 <= i < 36 :: HexDigit(id[i]) || id[i] == '-')
    && id[0] != '-'
    && id[8] == '-' && id[13] == '-' && id[18] == '-' && id[23] == '-'
  }

  function Pow10(n: nat): (p: nat)
    ensures p >= 1
  {
    if n == 0 then 1 else 10 * Pow10(n - 1)
  }

  function Decimal(n: nat): (s: string)
    ensures s != ""
    ensures forall i | 0 <= i < |s| :: '0' <= s[i] <= '9'
  {
    var digit := ('0' as int + n % 10) as char;
    if n < 10 then [digit] else Decimal(n / 10) + [digit]
  }

  // More candidates than this are never tried: the set of used names would
  // have to be as large.
  const PRACTICAL_DIGITS: nat := 45

  predicate Practical(ordinal: nat) {
    1 <= ordinal < Pow10(PRACTICAL_DIGITS)
  }

  // -------------------------------------------------------------- functions

  function Truncate(value: string, limit: int): string {
    if limit <= 0 then ""
    else
      var encoded := Encode(value);
      if |encoded| <= limit then value else DecodeIgnore(encoded[..limit])
  }

  function LastIndex(s: string, c: char): (i: int)
    ensures -1 <= i < |s|
    ensures i >= 0 ==> s[i] == c
    ensures forall k | i < k < |s| :: s[k] != c
  {
    if s == "" then -1
    else if s[|s| - 1] == c then |s| - 1
    else LastIndex(s[..|s| - 1], c)
  }

  // Where the suffix begins: the last dot, unless it is the first or the last
  // character.
  function SuffixStart(name: string): (i: nat)
    ensures i <= |name|
  {
    var dot := LastIndex(name, '.');
    if 0 < dot < |name| - 1 then dot else |name|
  }

  function Stem(name: string): string {
    name[..SuffixStart(name)]
  }

  function Suffix(name: string): string {
    name[SuffixStart(name)..]
  }

  // The last component of a path; empty and "." components do not count.
  function PathName(path: string): (name: string)
    ensures '/' !in name && name != "."
  {
    var slash := LastIndex(path, '/');
    var last := path[slash + 1..];
    if last != "" && last != "." then last
    else if slash < 0 then ""
    else PathName(path[..slash])
  }

  predicate Control(c: char) {
    c as int < 0x20 || c as int == 0x7F
  }

  function Clean(s: string): (r: string)
    ensures |r| == |s|
    ensures forall i | 0 <= i < |s| :: r[i] == if Control(s[i]) || s[i] == '/' then '_' else s[i]
  {
    if s == "" then ""
    else [if Control(s[0]) || s[0] == '/' then '_' else s[0]] + Clean(s[1..])
  }

  // The name before it is shortened.
  function Mounted(original: string, id: string): string {
    var clean := Clean(PathName(original));
    var named := if clean == "" || clean == "." || clean == ".." then id else clean;
    if named != "" && named[0] == '.' then "_" + named[1..] else named
  }

  function Shortened(name: string, id: string, limit: nat): string
    requires limit > 0
  {
    if Size(name) <= limit then name
    else
      var stem := Truncate(Stem(name), limit - Size(Suffix(name)));
      if Suffix(name) != "" && stem != "" then stem + Suffix(name)
      else
        var cut := Truncate(name, limit);
        if cut != "" then cut else Truncate(id, limit)
  }

  function SafeFilename(original: string, id: string, limit: nat): string
    requires limit > 0
  {
    Shortened(Mounted(original, id), id, limit)
  }

  function Marker(id: string, ordinal: nat): string
    requires ordinal > 0
  {
    if ordinal == 1 then "__" + id else ("__" + id + "_") + ("_" + Decimal(ordinal))
  }

  function CollisionName(name: string, id: string, limit: nat, ordinal: nat): string
    requires limit > 0 && ordinal > 0
  {
    var marker := Marker(id, ordinal);
    if Size(marker) >= limit then Truncate(marker, limit)
    else
      var budget := limit - Size(marker) - Size(Suffix(name));
      if Suffix(name) != "" && budget >= 0 then
        Truncate(Stem(name), budget) + marker + Suffix(name)
      else
        Truncate(Stem(name), limit - Size(marker)) + marker
  }

  function Search(base: string, id: string, used: set<string>, ordinal: nat, last: nat): Option<string>
    requires ordinal > 0
    decreases last + 1 - ordinal
  {
    if ordinal > last then None
    else
      var candidate := CollisionName(base, id, LIMIT, ordinal);
      if candidate !in used then Some(candidate) else Search(base, id, used, ordinal + 1, last)
  }

  // None is the assertion failure that the source raises.
  function AvailableName(original: string, id: string, used: set<string>): Option<string> {
    var base := SafeFilename(original, id, LIMIT);
    if base !in used then Some(base) else Search(base, id, used, 1, |used| + 1)
  }

  // The name that a replaced asset is moved to, given the names of all others.
  function RetiredName(name: string, id: string, others: set<string>): Option<string> {
    Search(name, id, others, 1, |others| + 1)
  }

  lemma SearchIsFree(base: string, id: string, used: set<string>, ordinal: nat, last: nat)
    requires ordinal > 0
    ensures Search(base, id, used, ordinal, last).Some? ==> Search(base, id, used, ordinal, last).value !in used
    decreases last + 1 - ordinal
  {
    hide CollisionName;
    if ordinal <= last && CollisionName(base, id, LIMIT, ordinal) in used {
      SearchIsFree(base, id, used, ordinal + 1, last);
    }
  }

  method FindAvailableName(original: string, id: string, used: set<string>) returns (name: Option<string>)
    ensures name == AvailableName(original, id, used)
  {
    hide SafeFilename, CollisionName;
    var base := SafeFilename(original, id, LIMIT);
    if base !in used {
      return Some(base);
    }
    for ordinal := 1 to |used| + 2
      invariant Search(base, id, used, 1, |used| + 1) == Search(base, id, used, ordinal, |used| + 1)
    {
      var candidate := CollisionName(base, id, LIMIT, ordinal);
      if candidate !in used {
        return Some(candidate);
      }
    }
    return None;
  }

  // ------------------------------------------------------------- truncation

  // Truncation is the longest prefix, in whole characters, that fits.
  lemma TruncateIsLongestFit(value: string, limit: int)
    ensures Truncate(value, limit) == value[..Fit(value, limit)]
    ensures limit >= 0 ==> Size(Truncate(value, limit)) <= limit
    ensures limit >= 0 ==> forall k | |Truncate(value, limit)| < k <= |value| :: Size(value[..k]) > limit
  {
    if limit > 0 {
      FitIsLongest(value, limit);
      if Size(value) <= limit {
        assert value[..|value|] == value;
      } else {
        DecodeCut(value, limit);
      }
    }
  }

  lemma SplitSize(name: string)
    ensures Stem(name) + Suffix(name) == name
    ensures Size(name) == Size(Stem(name)) + Size(Suffix(name))
    ensures Suffix(name) != "" ==>
              Suffix(name)[0] == '.' && Stem(name) != "" && forall k | 0 < k < |Suffix(name)| :: Suffix(name)[k] != '.'
  {
    assert Stem(name) + Suffix(name) == name;
    SizeConcat(Stem(name), Suffix(name));
  }

  lemma PrefixSize(s: string, k: nat)
    requires k <= |s|
    ensures Size(s) == Size(s[..k]) + Size(s[k..])
  {
    assert s == s[..k] + s[k..];
    SizeConcat(s[..k], s[k..]);
  }

  // ------------------------------------------------------------- safe names

  predicate Safe(name: string, limit: nat) {
    Plain(name) && Size(name) <= limit
  }

  lemma PathNameOfPlain(name: string)
    requires '/' !in name && name != "." && name != ""
    ensures PathName(name) == name
  {
    assert LastIndex(name, '/') == -1;
  }

  lemma SlashIsThere(whole: string, front: string, name: string)
    requires whole == front + name && '/' !in name && front != "" && front[|front| - 1] == '/'
    ensures whole[|front| - 1] == '/' && forall k | |front| <= k < |whole| :: whole[k] != '/'
    ensures whole[|front|..] == name
  {
  }

  lemma LastSlash(path: string, name: string)
    requires '/' !in name
    ensures LastIndex(path + "/" + name, '/') == |path| && (path + "/" + name)[|path| + 1..] == name
  {
    hide LastIndex;
    SlashIsThere(path + "/" + name, path + "/", name);
  }

  // The name of a path is what follows its last slash.
  lemma PathNameIs(path: string, name: string)
    requires '/' !in name && name != "" && name != "."
    ensures PathName(name) == name && PathName(path + "/" + name) == name
  {
    PathNameOfPlain(name);
    LastSlash(path, name);
    hide LastIndex;
  }

  // Control characters and a dot in front become underscores; a name of dots
  // alone is the identifier; nothing else changes.
  lemma MountedIs(name: string, id: string)
    requires CanonicalId(id) && '/' !in name && name != "" && name != "."
    ensures name == ".." ==> Mounted(name, id) == id
    ensures name != ".." ==>
              && |Mounted(name, id)| == |name|
              && forall i | 0 <= i < |name| ::
                   Mounted(name, id)[i] ==
                   if name[i] as int < 0x20 || name[i] as int == 0x7F || (i == 0 && name[0] == '.') then '_'
                      else name[i]
  {
    PathNameOfPlain(name);
    CleanDots(name);
    var clean := Clean(name);
    hide PathName, Clean;
    if name != ".." {
      UndottedIs(clean);
    }
  }

  lemma UndottedIs(clean: string)
    requires clean != ""
    ensures var named := if clean[0] == '.' then "_" + clean[1..] else clean;
            && |named| == |clean|
            && forall i | 0 <= i < |clean| :: named[i] == if i == 0 && clean[0] == '.' then '_' else clean[i]
  {
  }

  lemma CleanDots(name: string)
    requires '/' !in name
    ensures Clean(name) == ".." <==> name == ".."
    ensures Clean(name) == "." <==> name == "."
    ensures Clean(name) == "" <==> name == ""
  {
    var clean := Clean(name);
    hide Clean;
    if clean == ".." { assert name[0] == clean[0] && name[1] == clean[1]; }
    if clean == "." { assert name[0] == clean[0]; }
    if name == ".." { assert clean[0] == name[0] && clean[1] == name[1]; }
    if name == "." { assert clean[0] == name[0]; }
  }

  // A name that is too long keeps its suffix and as much of its stem as fits; if
  // not one character of it does, or there is no suffix, as much of the name as
  // fits.
  lemma ShortenedIs(name: string, id: string, limit: nat)
    requires limit > 0
    ensures Size(name) <= limit ==> Shortened(name, id, limit) == name
    ensures Size(name) > limit && Suffix(name) != "" && Size(Stem(name)[..1]) + Size(Suffix(name)) <= limit ==>
              exists n | 0 < n <= |Stem(name)| ::
                && Shortened(name, id, limit) == Stem(name)[..n] + Suffix(name)
                && Size(Stem(name)[..n]) + Size(Suffix(name)) <= limit
                && forall k | n < k <= |Stem(name)| :: Size(Stem(name)[..k]) + Size(Suffix(name)) > limit
    ensures Size(name) > limit && Size(name[..1]) <= limit
            && (Suffix(name) == "" || Size(Stem(name)[..1]) + Size(Suffix(name)) > limit) ==>
              exists n | 0 < n <= |name| ::
                && Shortened(name, id, limit) == name[..n] && Size(name[..n]) <= limit
                && forall k | n < k <= |name| :: Size(name[..k]) > limit
  {
    hide Truncate, SuffixStart;
    SplitSize(name);
    if Size(name) > limit {
      var stem, budget := Stem(name), limit - Size(Suffix(name));
      TruncateIsLongestFit(stem, budget);
      TruncateIsLongestFit(name, limit);
      if Suffix(name) != "" {
        CutStem(stem, budget);
        if Size(stem[..1]) <= budget { assert stem[..|Truncate(stem, budget)|] == Truncate(stem, budget); }
      }
      CutStem(name, limit);
      assert name[..|Truncate(name, limit)|] == Truncate(name, limit);
    }
  }

  lemma CutStem(stem: string, budget: int)
    requires stem != ""
    ensures Truncate(stem, budget) != "" <==> Size(stem[..1]) <= budget
  {
    TruncateIsLongestFit(stem, budget);
    FirstIsLarge(stem);
    if budget > 0 && Truncate(stem, budget) != "" {
      var n := |Truncate(stem, budget)|;
      assert stem[..n][..1] == stem[..1];
      PrefixSize(stem[..n], 1);
    }
  }

  lemma FirstIsLarge(s: string)
    requires s != ""
    ensures Size(s[..1]) > 0
  {
  }

  lemma SafeIsFixed(name: string, id: string, limit: nat)
    requires limit > 0 && Safe(name, limit)
    ensures SafeFilename(name, id, limit) == name
  {
    PathNameOfPlain(name);
    assert Clean(name) == name;
    assert name != "." && name != "..";
  }

  lemma SafeIdentifier(id: string, k: nat)
    requires CanonicalId(id) && 0 < k <= 36
    ensures Plain(id[..k]) && Size(id[..k]) == k
  {
    SizeAscii(id[..k]);
  }

  // No dot in front, no separator, no control character, at least one character.
  predicate Plain(name: string) {
    && name != "" && name[0] != '.'
    && forall i | 0 <= i < |name| :: name[i] as int >= 0x20 && name[i] as int != 0x7F && name[i] != '/'
  }

  lemma PlainPrefix(name: string, k: nat)
    requires Plain(name) && 0 < k <= |name|
    ensures Plain(name[..k])
  {
  }

  lemma ShortenedIsSafe(name: string, id: string, limit: nat)
    requires limit > 0 && CanonicalId(id) && Plain(name)
    ensures Safe(Shortened(name, id, limit), limit)
  {
    if Size(name) > limit {
      var stem := Truncate(Stem(name), limit - Size(Suffix(name)));
      if Suffix(name) != "" && stem != "" {
        ShortStemIsSafe(name, limit);
      } else if Truncate(name, limit) != "" {
        TruncateIsLongestFit(name, limit);
        PlainPrefix(name, |Truncate(name, limit)|);
      } else {
        ShortIdentifierIsSafe(id, limit);
      }
    }
  }

  lemma ShortStemIsSafe(name: string, limit: nat)
    requires Plain(name) && Truncate(Stem(name), limit - Size(Suffix(name))) != ""
    ensures Safe(Truncate(Stem(name), limit - Size(Suffix(name))) + Suffix(name), limit)
  {
    hide Truncate, Encode, Size;
    var budget := limit - Size(Suffix(name));
    TruncateIsLongestFit(Stem(name), budget);
    var stem := Truncate(Stem(name), budget);
    SizeConcat(stem, Suffix(name));
    assert stem == name[..|stem|];
    PlainConcat(stem, "", Suffix(name), name);
    assert stem + "" + Suffix(name) == stem + Suffix(name);
  }

  lemma ShortIdentifierIsSafe(id: string, limit: nat)
    requires limit > 0 && CanonicalId(id)
    ensures Safe(Truncate(id, limit), limit)
  {
    TruncateIsLongestFit(id, limit);
    SafeIdentifier(id, 1);
    SafeIdentifier(id, |Truncate(id, limit)|);
  }

  // A name built of the front of a plain name, a middle, and its end.
  lemma PlainConcat(head: string, middle: string, tail: string, name: string)
    requires Plain(name) && head <= name
    requires head != "" || (middle != "" && middle[0] != '.')
    requires forall i | 0 <= i < |middle| :: !Control(middle[i]) && middle[i] != '/'
    requires |tail| <= |name| && tail == name[|name| - |tail|..]
    ensures Plain(head + middle + tail)
  {
    var s := head + middle + tail;
    assert s[0] == if head != "" then name[0] else middle[0];
    forall i | 0 <= i < |s| ensures !Control(s[i]) && s[i] != '/' {
      if i < |head| {
        assert s[i] == name[i];
      } else if i < |head| + |middle| {
        assert s[i] == middle[i - |head|];
      } else {
        var k := i - |head| - |middle|;
        assert s[i] == tail[k] == name[|name| - |tail| + k];
      }
    }
  }

  // Whatever the server calls an asset, its mounted name is safe.
  lemma SafeFilenameIsSafe(original: string, id: string, limit: nat)
    requires limit > 0 && CanonicalId(id)
    ensures Safe(SafeFilename(original, id, limit), limit)
  {
    var name := Mounted(original, id);
    assert Plain(name);
    ShortenedIsSafe(name, id, limit);
  }

  // A name is what safe_filename makes of it exactly when it is safe, and
  // making a name safe twice is making it safe once.
  lemma SafeFilenameFixedPoints(name: string, id: string, limit: nat)
    requires limit > 0 && CanonicalId(id)
    ensures SafeFilename(name, id, limit) == name <==> Safe(name, limit)
    ensures SafeFilename(SafeFilename(name, id, limit), id, limit) == SafeFilename(name, id, limit)
  {
    SafeFilenameIsSafe(name, id, limit);
    SafeIsFixed(SafeFilename(name, id, limit), id, limit);
    if Safe(name, limit) { SafeIsFixed(name, id, limit); }
  }

  // -------------------------------------------------------- collision names

  lemma {:induction false} DecimalLength(n: nat, digits: nat)
    requires n < Pow10(digits) && digits > 0
    ensures |Decimal(n)| <= digits
  {
    if n >= 10 { DecimalLength(n / 10, digits - 1); }
  }

  lemma {:induction false} DecimalInjective(m: nat, n: nat)
    requires Decimal(m) == Decimal(n)
    ensures m == n
  {
    var s := Decimal(m);
    assert s[|s| - 1] as int - '0' as int == m % 10 == n % 10;
    if m >= 10 && n >= 10 {
      assert s[..|s| - 1] == Decimal(m / 10) == Decimal(n / 10);
      DecimalInjective(m / 10, n / 10);
    }
  }

  lemma MarkerShape(id: string, ordinal: nat)
    requires CanonicalId(id) && Practical(ordinal)
    ensures Size(Marker(id, ordinal)) == |Marker(id, ordinal)| <= 40 + PRACTICAL_DIGITS
    ensures Safe(Marker(id, ordinal), LIMIT)
    ensures Marker(id, ordinal) != "" && Marker(id, ordinal)[0] == '_'
    ensures '.' !in Marker(id, ordinal)
  {
    hide Pow10, Encode;
    DecimalLength(ordinal, PRACTICAL_DIGITS);
    SizeAscii(Marker(id, ordinal));
  }

  lemma SameTail(s: string, a: string, b: string, k: nat)
    requires s == a + b && k < |b|
    ensures s[|s| - 1 - k] == b[|b| - 1 - k]
  {
  }

  predicate Digits(d: string) {
    d != "" && forall i | 0 <= i < |d| :: '0' <= d[i] <= '9'
  }

  lemma IdentifierIsNotOrdinal(x: string, id: string, y: string, d: string)
    requires CanonicalId(id) && Digits(d)
    ensures x + id != y + ("_" + d)
  {
    var s, t := x + id, y + ("_" + d);
    if s == t {
      SameTail(s, x, id, 12);
      SameTail(t, y, "_" + d, if |d| < 36 then |d| else 12);
      if |d| < 36 { SameTail(s, x, id, |d|); }
    }
  }

  lemma SameOrdinalText(x: string, d: string, y: string, e: string)
    requires Digits(d) && Digits(e) && |d| <= |e| && x + ("_" + d) == y + ("_" + e)
    ensures d == e
  {
    var s := x + ("_" + d);
    SameTail(s, x, "_" + d, |d|);
    SameTail(s, y, "_" + e, |d|);
    assert d == s[|s| - |d|..];
    assert e == s[|s| - |e|..];
  }

  // Two different ordinals never end two names in the same way.
  lemma MarkersDiffer(a: string, i: nat, b: string, j: nat, id: string)
    requires CanonicalId(id) && 1 <= i < j
    ensures a + Marker(id, i) != b + Marker(id, j)
  {
    var y := b + ("__" + id + "_");
    assert b + Marker(id, j) == y + ("_" + Decimal(j));
    if i == 1 {
      assert a + Marker(id, i) == (a + "__") + id;
      IdentifierIsNotOrdinal(a + "__", id, y, Decimal(j));
    } else if a + Marker(id, i) == b + Marker(id, j) {
      var x := a + ("__" + id + "_");
      assert a + Marker(id, i) == x + ("_" + Decimal(i));
      if |Decimal(i)| <= |Decimal(j)| {
        SameOrdinalText(x, Decimal(i), y, Decimal(j));
      } else {
        SameOrdinalText(y, Decimal(j), x, Decimal(i));
      }
      DecimalInjective(i, j);
    }
  }

  predicate KeepsSuffix(name: string, id: string, ordinal: nat)
    requires ordinal > 0
  {
    Suffix(name) != "" && Size(Marker(id, ordinal)) + Size(Suffix(name)) <= LIMIT
  }

  // The parts of a collision name: what is left of the stem, the marker, and
  // the suffix where there is room for it.
  function Tail(name: string, id: string, ordinal: nat): string
    requires ordinal > 0
  {
    if KeepsSuffix(name, id, ordinal) then Suffix(name) else ""
  }

  function Head(name: string, id: string, ordinal: nat): string
    requires ordinal > 0
  {
    Truncate(Stem(name), LIMIT - Size(Marker(id, ordinal)) - Size(Tail(name, id, ordinal)))
  }

  lemma HeadFits(name: string, id: string, ordinal: nat)
    requires CanonicalId(id) && Practical(ordinal)
    ensures Head(name, id, ordinal) <= Stem(name)
    ensures Size(Head(name, id, ordinal)) + Size(Marker(id, ordinal)) + Size(Tail(name, id, ordinal)) <= LIMIT
  {
    hide Truncate, Marker, Stem;
    MarkerShape(id, ordinal);
    TruncateIsLongestFit(Stem(name), LIMIT - Size(Marker(id, ordinal)) - Size(Tail(name, id, ordinal)));
  }

  lemma CollisionShape(name: string, id: string, ordinal: nat)
    requires CanonicalId(id) && Practical(ordinal)
    ensures CollisionName(name, id, LIMIT, ordinal)
         == Head(name, id, ordinal) + Marker(id, ordinal) + Tail(name, id, ordinal)
  {
    MarkerShape(id, ordinal);
    SizeAscii("");
    hide Marker, Truncate, Encode, Size, Stem, CanonicalId, Practical;
    if !KeepsSuffix(name, id, ordinal) {
      var s := Head(name, id, ordinal) + Marker(id, ordinal);
      assert s + "" == s;
    }
  }

  predicate LongestHead(head: string, stem: string, room: int) {
    && head <= stem
    && Size(head) <= room
    && forall k | |head| < k <= |stem| :: Size(stem[..k]) > room
  }

  lemma TruncateIsLongestHead(stem: string, room: nat)
    ensures LongestHead(Truncate(stem, room), stem, room)
  {
    hide Truncate, Size;
    TruncateIsLongestFit(stem, room);
  }

  // A collision name is as much of the stem as fits, the identifier between
  // underscores, from the second candidate on with its ordinal, and the suffix if
  // there is room for it.
  lemma CollisionNameIs(name: string, id: string, ordinal: nat)
    requires CanonicalId(id) && Practical(ordinal)
    ensures var mark := "__" + id + (if ordinal == 1 then "" else "__" + Decimal(ordinal));
            var suffix := if Size(mark) + Size(Suffix(name)) <= LIMIT then Suffix(name) else "";
            exists head :: LongestHead(head, Stem(name), LIMIT - Size(mark) - Size(suffix))
              && CollisionName(name, id, LIMIT, ordinal) == head + mark + suffix
  {
    hide Truncate, Size, Marker, CollisionName, Suffix, Stem, Decimal, CanonicalId, LongestHead;
    CollisionShape(name, id, ordinal);
    HeadFits(name, id, ordinal);
    MarkerIs(id, ordinal);
    TruncateIsLongestHead(Stem(name), LIMIT - Size(Marker(id, ordinal)) - Size(Tail(name, id, ordinal)));
  }

  // A short name without a suffix is marked as it is.
  lemma UnnamedIs(id: string)
    requires CanonicalId(id)
    ensures CollisionName("Unnamed", id, LIMIT, 1) == "Unnamed" + "__" + id
  {
    IdSize(id);
    SizeAscii("Unnamed");
    assert LastIndex("Unnamed", '.') == -1;
    assert Suffix("Unnamed") == "" && Stem("Unnamed") == "Unnamed";
    hide Encode, CanonicalId, Size, Suffix, Stem;
    assert Size("") == 0 by { SizeAscii(""); }
  }

  lemma IdSize(id: string)
    requires CanonicalId(id)
    ensures |"__" + id| == 38 && Size("__" + id) == 38
  {
    SizeAscii("__" + id);
  }

  lemma MarkerIs(id: string, ordinal: nat)
    requires ordinal > 0
    ensures Marker(id, ordinal) == "__" + id + (if ordinal == 1 then "" else "__" + Decimal(ordinal))
  {
    hide Decimal;
    if ordinal > 1 {
      assert ("__" + id + "_") + ("_" + Decimal(ordinal)) == "__" + id + ("__" + Decimal(ordinal));
    } else {
      assert "__" + id + "" == "__" + id;
    }
  }

  // The digits of a number, the last one last.
  lemma DecimalIs(n: nat)
    ensures n < 10 ==> Decimal(n) == [('0' as int + n) as char]
    ensures n >= 10 ==> Decimal(n) == Decimal(n / 10) + [('0' as int + n % 10) as char]
  {
  }

  // A candidate that keeps the suffix and one that drops it differ too: the
  // suffix would have to hold the other marker, and with it the name would be
  // longer than a name can be.
  lemma SuffixCannotHoldMarker(stem: string, suffix: string, a: string, head: string, m: string)
    requires suffix != "" && suffix[0] == '.' && '.' !in m && Size(m) == |m| <= 85
    requires head <= stem && Size(stem) + Size(suffix) <= LIMIT
    requires |m| + Size(suffix) > LIMIT
    ensures a + suffix != head + m
  {
    if |suffix| <= |m| {
      DotIsNotInMarker(suffix, a, head, m);
    } else if a + suffix == head + m {
      HeldMarkerSize(stem, suffix, a, head, m);
    }
  }

  lemma DotIsNotInMarker(suffix: string, a: string, head: string, m: string)
    requires suffix != "" && suffix[0] == '.' && '.' !in m && |suffix| <= |m|
    ensures a + suffix != head + m
  {
    var s, t, k := a + suffix, head + m, |a|;
    if |s| == |t| {
      assert s[k] == '.' && t[k] == m[k - |head|];
    }
  }

  lemma HeldMarkerSize(stem: string, suffix: string, a: string, head: string, m: string)
    requires a + suffix == head + m && |suffix| >= |m| && head <= stem
    ensures Size(suffix) <= Size(stem) + Size(m)
  {
    var cut := |suffix| - |m|;
    CutBoth(a, suffix, head, m);
    PrefixSize(suffix, cut);
    SizeConcat(a, suffix[..cut]);
    assert head == stem[..|head|];
    PrefixSize(stem, |head|);
  }

  lemma CutBoth(a: string, suffix: string, head: string, m: string)
    requires a + suffix == head + m && |suffix| >= |m|
    ensures head == a + suffix[..|suffix| - |m|] && m == suffix[|suffix| - |m|..]
  {
    var s := a + suffix;
    assert head == s[..|s| - |m|];
    assert m == s[|s| - |m|..];
  }

  lemma KeptAndDroppedDiffer(name: string, id: string, kept: nat, dropped: nat)
    requires CanonicalId(id) && Size(name) <= LIMIT && Practical(kept) && Practical(dropped)
    requires KeepsSuffix(name, id, kept) && !KeepsSuffix(name, id, dropped)
    ensures CollisionName(name, id, LIMIT, kept) != CollisionName(name, id, LIMIT, dropped)
  {
    CollisionShape(name, id, kept);
    CollisionShape(name, id, dropped);
    HeadFits(name, id, dropped);
    MarkerShape(id, dropped);
    SplitSize(name);
    var head, m := Head(name, id, dropped), Marker(id, dropped);
    SuffixCannotHoldMarker(Stem(name), Suffix(name), Head(name, id, kept) + Marker(id, kept), head, m);
    assert head + m + "" == head + m;
  }

  lemma CancelSuffix(s: string, t: string, suffix: string)
    requires s + suffix == t + suffix
    ensures s == t
  {
    assert s == (s + suffix)[..|s|];
    assert t == (t + suffix)[..|t|];
  }

  // Distinct practical ordinals give distinct names, although the stem is
  // truncated and the suffix can be dropped.
  lemma CollisionNamesDistinct(name: string, id: string, i: nat, j: nat)
    requires CanonicalId(id) && Size(name) <= LIMIT
    requires Practical(i) && Practical(j) && i != j
    ensures CollisionName(name, id, LIMIT, i) != CollisionName(name, id, LIMIT, j)
  {
    if KeepsSuffix(name, id, i) && !KeepsSuffix(name, id, j) {
      KeptAndDroppedDiffer(name, id, i, j);
    } else if KeepsSuffix(name, id, j) && !KeepsSuffix(name, id, i) {
      KeptAndDroppedDiffer(name, id, j, i);
    } else {
      CollisionShape(name, id, i);
      CollisionShape(name, id, j);
      var a, b := Head(name, id, i), Head(name, id, j);
      if CollisionName(name, id, LIMIT, i) == CollisionName(name, id, LIMIT, j) {
        CancelSuffix(a + Marker(id, i), b + Marker(id, j), Tail(name, id, i));
      }
      if i < j { MarkersDiffer(a, i, b, j, id); } else { MarkersDiffer(b, j, a, i, id); }
    }
  }

  lemma CollisionNameIsSafe(name: string, id: string, ordinal: nat)
    requires CanonicalId(id) && Safe(name, LIMIT) && Practical(ordinal)
    ensures Safe(CollisionName(name, id, LIMIT, ordinal), LIMIT)
  {
    MarkerShape(id, ordinal);
    CollisionShape(name, id, ordinal);
    HeadFits(name, id, ordinal);
    var head, marker, tail := Head(name, id, ordinal), Marker(id, ordinal), Tail(name, id, ordinal);
    PlainConcat(head, marker, tail, name);
    SizeConcat(head, marker);
    SizeConcat(head + marker, tail);
  }

  // ------------------------------------------------------------- the search

  // n distinct candidates cannot all be among fewer used names.
  lemma {:induction false} Pigeonhole(base: string, id: string, used: set<string>, n: nat)
    requires CanonicalId(id) && Size(base) <= LIMIT && (n > 0 ==> Practical(n))
    requires forall k | 1 <= k <= n :: CollisionName(base, id, LIMIT, k) in used
    ensures n <= |used|
  {
    if n > 0 {
      var last := CollisionName(base, id, LIMIT, n);
      forall k | 1 <= k < n ensures CollisionName(base, id, LIMIT, k) in used - {last} {
        CollisionNamesDistinct(base, id, k, n);
      }
      Pigeonhole(base, id, used - {last}, n - 1);
    }
  }

  lemma {:induction false} SearchFindsFirst(base: string, id: string, used: set<string>, from: nat, last: nat)
    requires from > 0
    ensures match Search(base, id, used, from, last)
            case None => forall k | from <= k <= last :: CollisionName(base, id, LIMIT, k) in used
            case Some(name) =>
              exists k | from <= k <= last ::
                && name == CollisionName(base, id, LIMIT, k) && name !in used
                && forall j | from <= j < k :: CollisionName(base, id, LIMIT, j) in used
    decreases last + 1 - from
  {
    hide CollisionName;
    if from <= last && CollisionName(base, id, LIMIT, from) in used {
      SearchFindsFirst(base, id, used, from + 1, last);
    }
  }

  // Among |used| + 1 tries one is always free, and it is the first free one.
  lemma SearchSucceeds(base: string, id: string, used: set<string>)
    requires CanonicalId(id) && Safe(base, LIMIT) && Practical(|used| + 1)
    ensures Search(base, id, used, 1, |used| + 1).Some?
    ensures Search(base, id, used, 1, |used| + 1).value !in used
    ensures Safe(Search(base, id, used, 1, |used| + 1).value, LIMIT)
  {
    SearchFindsFirst(base, id, used, 1, |used| + 1);
    if Search(base, id, used, 1, |used| + 1) == None {
      Pigeonhole(base, id, used, |used| + 1);
    } else {
      var name := Search(base, id, used, 1, |used| + 1).value;
      var k :| 1 <= k <= |used| + 1 && name == CollisionName(base, id, LIMIT, k);
      CollisionNameIsSafe(base, id, k);
    }
  }

  // The bounded search never runs out: the name is new, at most 255 bytes long
  // and one that safe_filename leaves alone.
  lemma AvailableNameIsFresh(original: string, id: string, used: set<string>)
    requires CanonicalId(id) && Practical(|used| + 1)
    ensures AvailableName(original, id, used).Some?
    ensures AvailableName(original, id, used).value !in used
    ensures Safe(AvailableName(original, id, used).value, LIMIT)
  {
    SafeFilenameIsSafe(original, id, LIMIT);
    var base := SafeFilename(original, id, LIMIT);
    if base in used { SearchSucceeds(base, id, used); }
  }

  // ---------------------------------------------------------------- retiring

  predicate EndsWith(s: string, tail: string) {
    |tail| <= |s| && s[|s| - |tail|..] == tail
  }

  // A full-length name whose stem already ends in the marker.
  predicate SelfMarked(name: string, id: string, ordinal: nat)
    requires ordinal > 0
  {
    Size(name) == LIMIT && EndsWith(Stem(name), Marker(id, ordinal))
  }

  // Exactly those names are their own collision names.
  lemma CollisionNameFixedPoints(name: string, id: string, ordinal: nat)
    requires CanonicalId(id) && Practical(ordinal)
    ensures CollisionName(name, id, LIMIT, ordinal) == name <==> SelfMarked(name, id, ordinal)
  {
    if CollisionName(name, id, LIMIT, ordinal) == name { OwnNameIsSelfMarked(name, id, ordinal); }
    if SelfMarked(name, id, ordinal) { SelfMarkedIsOwnName(name, id, ordinal); }
  }

  lemma OwnNameIsSelfMarked(name: string, id: string, ordinal: nat)
    requires CanonicalId(id) && Practical(ordinal)
    requires CollisionName(name, id, LIMIT, ordinal) == name
    ensures SelfMarked(name, id, ordinal)
  {
    hide Truncate, Encode, Size, CollisionName, Marker, Stem, Suffix, SuffixStart, Pow10;
    CollisionShape(name, id, ordinal);
    HeadFits(name, id, ordinal);
    MarkerShape(id, ordinal);
    SplitSize(name);
    var stem, m, tail, head := Stem(name), Marker(id, ordinal), Tail(name, id, ordinal), Head(name, id, ordinal);
    OwnNameKeepsSuffix(stem, Suffix(name), head, m, tail);
    CancelSuffix(stem, head + m, tail);
    NextCharacterOverflows(stem, m, LIMIT - Size(m) - Size(tail));
    SizeConcat(head, m);
  }

  lemma SelfMarkedIsOwnName(name: string, id: string, ordinal: nat)
    requires CanonicalId(id) && Practical(ordinal)
    requires SelfMarked(name, id, ordinal)
    ensures CollisionName(name, id, LIMIT, ordinal) == name
  {
    hide Truncate, Encode, Size, CollisionName, Marker, Stem, Suffix, SuffixStart, Pow10;
    CollisionShape(name, id, ordinal);
    MarkerShape(id, ordinal);
    SplitSize(name);
    var stem, m, tail := Stem(name), Marker(id, ordinal), Tail(name, id, ordinal);
    PrefixSize(stem, |stem| - |m|);
    FullLengthKeepsSuffix(name, id, ordinal);
    FullLengthCut(stem, m, LIMIT - Size(m) - Size(tail));
    assert stem == stem[..|stem| - |m|] + m;
  }

  lemma FullLengthKeepsSuffix(name: string, id: string, ordinal: nat)
    requires CanonicalId(id) && Practical(ordinal) && SelfMarked(name, id, ordinal)
    ensures Tail(name, id, ordinal) == Suffix(name)
  {
    hide Truncate, Encode, Size, CollisionName, Marker, Stem, Suffix, SuffixStart, Pow10;
    var stem, m := Stem(name), Marker(id, ordinal);
    SplitSize(name);
    PrefixSize(stem, |stem| - |m|);
  }

  lemma OwnNameKeepsSuffix(stem: string, suffix: string, head: string, m: string, tail: string)
    requires head + m + tail == stem + suffix && head <= stem && (tail == suffix || tail == "")
    requires suffix != "" ==> suffix[0] == '.'
    requires '.' !in m
    ensures tail == suffix
  {
    if tail == "" && suffix != "" {
      assert head + m + tail == head + m;
      if |suffix| <= |m| {
        SameTail(head + m, head, m, |suffix| - 1);
        SameTail(head + m, stem, suffix, |suffix| - 1);
      }
    }
  }

  // Where the marker follows the cut, the cut has used its whole budget.
  lemma NextCharacterOverflows(stem: string, m: string, budget: nat)
    requires m != "" && m[0] == '_' && stem == Truncate(stem, budget) + m
    ensures Size(Truncate(stem, budget)) == budget
  {
    TruncateIsLongestFit(stem, budget);
    var head := Truncate(stem, budget);
    assert stem[..|head| + 1] == head + "_";
    SizeConcat(head, "_");
  }

  lemma FullLengthCut(stem: string, m: string, budget: nat)
    requires m != "" && m[0] == '_' && EndsWith(stem, m)
    requires Size(stem[..|stem| - |m|]) == budget
    ensures Truncate(stem, budget) == stem[..|stem| - |m|]
  {
    TruncateIsLongestFit(stem, budget);
    hide Truncate;
    var k, head := |stem| - |m|, Truncate(stem, budget);
    if |head| > k {
      assert stem[..k + 1] == stem[..k] + "_";
      SizeConcat(stem[..k], "_");
      assert head[..k + 1] == stem[..k + 1];
      PrefixSize(head, k + 1);
    }
  }

  // The search for a retired name looks only at the names of other assets, so
  // it can come back with the very name it was to free. It does so exactly when
  // the name is full-length and carries the first marker that is not in use.
  lemma RetiredNameIsOwnName(name: string, id: string, others: set<string>)
    requires CanonicalId(id) && Safe(name, LIMIT) && Practical(|others| + 1)
    requires name !in others
    ensures RetiredName(name, id, others).Some? && RetiredName(name, id, others).value !in others
    ensures Safe(RetiredName(name, id, others).value, LIMIT)
    ensures RetiredName(name, id, others).value == name <==>
            exists k | 1 <= k <= |others| + 1 ::
              && SelfMarked(name, id, k)
              && forall j | 1 <= j < k :: CollisionName(name, id, LIMIT, j) in others
  {
    SearchSucceeds(name, id, others);
    SearchFindsFirst(name, id, others, 1, |others| + 1);
    var retired := RetiredName(name, id, others).value;
    var first :| 1 <= first <= |others| + 1 && retired == CollisionName(name, id, LIMIT, first)
      && forall j | 1 <= j < first :: CollisionName(name, id, LIMIT, j) in others;
    CollisionNameFixedPoints(name, id, first);
    forall k | 1 <= k <= |others| + 1 && SelfMarked(name, id, k)
               && forall j | 1 <= j < k :: CollisionName(name, id, LIMIT, j) in others
      ensures retired == name
    {
      CollisionNameFixedPoints(name, id, k);
      assert k == first;
    }
  }

  // A name of 255 bytes that carries its owner's marker already.
  function MarkedName(id: string): string {
    seq(217, _ => 'a') + Marker(id, 1)
  }

  // Whatever its owner, it retires to itself.
  lemma MarkedNameRetiresToItself(id: string, others: set<string>)
    requires CanonicalId(id) && MarkedName(id) !in others
    ensures Safe(MarkedName(id), LIMIT) && SelfMarked(MarkedName(id), id, 1)
    ensures RetiredName(MarkedName(id), id, others) == Some(MarkedName(id))
  {
    MarkedNameIsSafe(id);
    OneIsPractical();
    CollisionNameFixedPoints(MarkedName(id), id, 1);
    hide MarkedName, CollisionName, SelfMarked, Safe;
  }

  lemma OneIsPractical()
    ensures Practical(1)
  {
    assert Pow10(45) == 10 * Pow10(44);
  }

  lemma MarkedNameIsSafe(id: string)
    requires CanonicalId(id)
    ensures Safe(MarkedName(id), LIMIT) && SelfMarked(MarkedName(id), id, 1)
  {
    hide Encode;
    var name := MarkedName(id);
    assert |Marker(id, 1)| == 38 && name[0] == 'a';
    assert name[217..] == Marker(id, 1);
    SizeAscii(name);
    NoDotNoSuffix(name);
  }

  lemma NoDotNoSuffix(name: string)
    requires '.' !in name
    ensures Suffix(name) == "" && Stem(name) == name
  {
  }
}
