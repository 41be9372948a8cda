/** Utterance recordings on disk (controller/em_recordings.py): names, ownership and retention. */
module Recordings {
  import opened Options
  import opened Sets

  datatype Kind = Stt | Tts

  datatype Recording = Recording(device: string, turn: nat, kind: Kind)

  // ---- Numerals

  predicate DigitChar(c: char) {
    '0' <= c <= '9'
  }

  predicate Digits(s: string) {
    forall i :: 0 <= i < |s| ==> DigitChar(s[i])
  }

  function DigitOf(n: nat): (c: char)
    requires n < 10
    ensures DigitChar(c) && (c as int) - ('0' as int) == n
  {
    ('0' as int + n) as char
  }

  function Decimal(n: nat): (s: string)
    ensures |s| >= 1 && Digits(s)
  {
    if n < 10 then [DigitOf(n)] else Decimal(n / 10) + [DigitOf(n % 10)]
  }

  function Value(s: string): nat
    requires Digits(s)
  {
    if |s| == 0 then 0 else 10 * Value(s[..|s| - 1]) + ((s[|s| - 1] as int) - ('0' as int))
  }

  lemma {:induction false} DecimalValue(n: nat)
    ensures Value(Decimal(n)) == n
  {
    if n >= 10 {
      DecimalValue(n / 10);
      assert Decimal(n)[..|Decimal(n)| - 1] == Decimal(n / 10);
    } else {
      assert Decimal(n)[..0] == "";
    }
  }

  function PowerOfTen(k: nat): (p: nat)
    ensures p >= 1
  {
    if k == 0 then 1 else 10 * PowerOfTen(k - 1)
  }

  /** A number below the k-th power of ten, and no other, is written in k digits or fewer. */
  lemma {:induction false} DecimalLength(n: nat, k: nat)
    requires k >= 1
    ensures |Decimal(n)| <= k <==> n < PowerOfTen(k)
  {
    if k == 1 {
      assert PowerOfTen(1) == 10 * PowerOfTen(0);
    } else if n < 10 {
      assert PowerOfTen(k - 1) >= 1;
    } else {
      DecimalLength(n / 10, k - 1);
    }
  }

  /** A numeral's last digit is the ones, and what stands before it the tens. */
  lemma DecimalReads(n: nat, d: nat)
    requires n > 0 && d < 10
    ensures Decimal(10 * n + d) == Decimal(n) + ["0123456789"[d]]
  {
    assert (10 * n + d) / 10 == n && (10 * n + d) % 10 == d;
    OnesDigit(d);
  }

  lemma OnesDigit(d: nat)
    requires d < 10
    ensures Decimal(d) == ["0123456789"[d]] && DigitOf(d) == "0123456789"[d]
  {
  }

  // ---- Names

  predicate IdChar(c: char) {
    'A' <= c <= 'Z' || 'a' <= c <= 'z' || DigitChar(c) || c == '_' || c == '.' || c == '-'
  }

  predicate SafeDeviceId(d: string) {
    1 <= |d| <= 64 && forall i :: 0 <= i < |d| ==> IdChar(d[i])
  }

  function Suffix(k: Kind): string {
    if k == Tts then "_tts" else ""
  }

  function NameOf(d: string, digits: string, k: Kind): string {
    d + "_" + digits + Suffix(k) + ".wav"
  }

  /** The name of a turn's recording, None when the device or turn cannot be named. */
  function Filename(device: string, turn: int, kind: Kind): Option<string> {
    if SafeDeviceId(device) && turn >= 0 then Some(NameOf(device, Decimal(turn), kind)) else None
  }

  /** The name pattern as a relation. Its `$` also matches before one final newline. */
  predicate Matches(name: string, d: string, digits: string, k: Kind) {
    && SafeDeviceId(d) && 1 <= |digits| <= 19 && Digits(digits)
    && (name == NameOf(d, digits, k) || name == NameOf(d, digits, k) + "\n")
  }

  function TrailingDigits(s: string): (n: nat)
    ensures n <= |s|
  {
    if |s| > 0 && DigitChar(s[|s| - 1]) then TrailingDigits(s[..|s| - 1]) + 1 else 0
  }

  predicate EndsWith(s: string, ext: string) {
    |s| >= |ext| && s[|s| - |ext|..] == ext
  }

  function Chop(s: string, ext: string): string
    requires EndsWith(s, ext)
  {
    s[..|s| - |ext|]
  }

  /** Device and turn once the cut between them is known. */
  function Split(core: string, cut: nat, k: Kind): Option<Recording>
    requires 0 < cut <= |core| && Digits(core[cut..])
  {
    if core[cut - 1] == '_' && SafeDeviceId(core[..cut - 1])
    then Some(Recording(core[..cut - 1], Value(core[cut..]), k))
    else None
  }

  /** Device and turn from what is left of a name without its ending. */
  function ParseStem(core: string, k: Kind): Option<Recording> {
    var n := TrailingDigits(core);
    var cut := |core| - n;
    TrailingAreDigits(core);
    if 1 <= n <= 19 && cut >= 2 then Split(core, cut, k) else None
  }

  function ParseLine(name: string): Option<Recording> {
    if !EndsWith(name, ".wav") then None
    else
      var stem := Chop(name, ".wav");
      if EndsWith(stem, "_tts") then ParseStem(Chop(stem, "_tts"), Tts) else ParseStem(stem, Stt)
  }

  function ParseFilename(name: string): Option<Recording> {
    if EndsWith(name, "\n") then ParseLine(Chop(name, "\n")) else ParseLine(name)
  }

  // ---- The parser is the pattern

  lemma EndingOf(s: string, ext: string)
    ensures EndsWith(s + ext, ext) && Chop(s + ext, ext) == s
  {
    assert (s + ext)[|s|..] == ext && (s + ext)[..|s|] == s;
  }

  /** Ending in a text, a string ends in that text's last character. */
  lemma EndsLast(s: string, ext: string)
    requires |ext| > 0
    ensures EndsWith(s, ext) ==> |s| > 0 && s[|s| - 1] == ext[|ext| - 1]
  {
    if EndsWith(s, ext) {
      assert s[|s| - |ext|..][|ext| - 1] == s[|s| - 1];
    }
  }

  lemma {:induction false} TrailingAreDigits(s: string)
    ensures Digits(s[|s| - TrailingDigits(s)..])
  {
    if |s| > 0 && DigitChar(s[|s| - 1]) {
      var init := s[..|s| - 1];
      TrailingAreDigits(init);
      var n := TrailingDigits(init);
      assert s[|s| - n - 1..] == init[|init| - n..] + [s[|s| - 1]];
    }
  }

  /** Digits after an underscore are all the trailing digits there are. */
  lemma {:induction false} TrailingAfter(d: string, digits: string)
    requires Digits(digits)
    ensures TrailingDigits(d + "_" + digits) == |digits|
  {
    var s := d + "_" + digits;
    if |digits| == 0 {
      assert s[|s| - 1] == '_';
    } else {
      var init := digits[..|digits| - 1];
      TrailingAfter(d, init);
      assert s[..|s| - 1] == d + "_" + init;
      assert s[|s| - 1] == digits[|digits| - 1];
    }
  }

  lemma StemParses(d: string, digits: string, k: Kind)
    requires SafeDeviceId(d) && 1 <= |digits| <= 19 && Digits(digits)
    ensures ParseStem(d + "_" + digits, k) == Some(Recording(d, Value(digits), k))
  {
    TrailingAfter(d, digits);
    SplitParses(d, digits, k);
    StemIsSplit(d + "_" + digits, |d| + 1, k);
  }

  lemma StemIsSplit(core: string, cut: nat, k: Kind)
    requires 2 <= cut && 1 <= TrailingDigits(core) <= 19 && cut == |core| - TrailingDigits(core)
    ensures Digits(core[cut..]) && ParseStem(core, k) == Split(core, cut, k)
  {
    TrailingAreDigits(core);
  }

  lemma SplitParses(d: string, digits: string, k: Kind)
    requires SafeDeviceId(d) && Digits(digits)
    ensures var s, cut := d + "_" + digits, |d| + 1;
            |s| - |digits| == cut && Digits(s[cut..]) && Split(s, cut, k) == Some(Recording(d, Value(digits), k))
  {
    StemCut(d, digits);
  }

  lemma StemCut(d: string, digits: string)
    ensures var s, cut := d + "_" + digits, |d| + 1;
            |s| - |digits| == cut && s[cut - 1] == '_' && s[..cut - 1] == d && s[cut..] == digits
  {
  }

  lemma LineParses(d: string, digits: string, k: Kind)
    requires SafeDeviceId(d) && 1 <= |digits| <= 19 && Digits(digits)
    ensures ParseLine(NameOf(d, digits, k)) == Some(Recording(d, Value(digits), k))
  {
    var core := d + "_" + digits;
    EndingOf(core + Suffix(k), ".wav");
    StemParses(d, digits, k);
    if k == Tts {
      EndingOf(core, "_tts");
    } else {
      assert core + Suffix(k) == core;
      assert core[|core| - 1] == digits[|digits| - 1];
      EndsLast(core, "_tts");
    }
  }

  lemma NoFinalNewline(d: string, digits: string, k: Kind)
    ensures !EndsWith(NameOf(d, digits, k), "\n")
  {
    var name := NameOf(d, digits, k);
    EndsLast(name, ".wav");
    EndsLast(name, "\n");
    EndingOf(d + "_" + digits + Suffix(k), ".wav");
  }

  lemma ChopRestores(s: string, ext: string)
    requires EndsWith(s, ext)
    ensures Chop(s, ext) + ext == s
  {
  }

  lemma StemMatches(core: string, k: Kind) returns (digits: string)
    requires ParseStem(core, k).Some?
    ensures Digits(digits) && 1 <= |digits| <= 19
    ensures var r := ParseStem(core, k).value;
            SafeDeviceId(r.device) && core == r.device + "_" + digits && r.turn == Value(digits) && r.kind == k
  {
    var cut := |core| - TrailingDigits(core);
    TrailingAreDigits(core);
    digits := core[cut..];
    assert core == core[..cut - 1] + [core[cut - 1]] + core[cut..];
  }

  lemma LineMatches(line: string) returns (digits: string)
    requires ParseLine(line).Some?
    ensures Digits(digits) && 1 <= |digits| <= 19
    ensures var r := ParseLine(line).value;
            SafeDeviceId(r.device) && line == NameOf(r.device, digits, r.kind) && r.turn == Value(digits)
  {
    var stem := Chop(line, ".wav");
    ChopRestores(line, ".wav");
    if EndsWith(stem, "_tts") {
      ChopRestores(stem, "_tts");
      digits := StemMatches(Chop(stem, "_tts"), Tts);
    } else {
      digits := StemMatches(stem, Stt);
      assert stem + "" == stem;
    }
  }

  /** A parse is a match of the pattern. */
  lemma ParseMatches(name: string) returns (digits: string)
    requires ParseFilename(name).Some?
    ensures Digits(digits)
    ensures var r := ParseFilename(name).value; Matches(name, r.device, digits, r.kind) && r.turn == Value(digits)
  {
    if EndsWith(name, "\n") {
      ChopRestores(name, "\n");
      digits := LineMatches(Chop(name, "\n"));
    } else {
      digits := LineMatches(name);
    }
  }

  /** The parser accepts exactly the names of the pattern, and a name matches in one way only, however many
      underscores and digits the device id holds. */
  lemma ParseIsPattern(name: string, d: string, digits: string, k: Kind)
    ensures Matches(name, d, digits, k) ==> ParseFilename(name) == Some(Recording(d, Value(digits), k))
    ensures ParseFilename(name).Some? <==> exists d, g, k :: Matches(name, d, g, k)
  {
    if Matches(name, d, digits, k) {
      MatchParses(name, d, digits, k);
    }
    if ParseFilename(name).Some? {
      var g := ParseMatches(name);
    }
    forall d, g, k | Matches(name, d, g, k) ensures ParseFilename(name).Some? {
      MatchParses(name, d, g, k);
    }
  }

  lemma MatchParses(name: string, d: string, digits: string, k: Kind)
    requires Matches(name, d, digits, k)
    ensures ParseFilename(name) == Some(Recording(d, Value(digits), k))
  {
    LineParses(d, digits, k);
    NoFinalNewline(d, digits, k);
    EndingOf(NameOf(d, digits, k), "\n");
  }

  // ---- Round trip

  /** A recording's name parses back to it exactly while its turn has at most nineteen digits; a longer turn is
      saved under a name that is never listed, served or pruned. */
  lemma FilenameRoundTrip(device: string, turn: nat, kind: Kind)
    requires SafeDeviceId(device)
    ensures var name := Filename(device, turn, kind).value;
            ParseFilename(name) == (if |Decimal(turn)| <= 19 then Some(Recording(device, turn, kind)) else None)
  {
    var name := Filename(device, turn, kind).value;
    DecimalValue(turn);
    if |Decimal(turn)| <= 19 {
      MatchParses(name, device, Decimal(turn), kind);
    } else if ParseFilename(name).Some? {
      var r := ParseFilename(name).value;
      var g := ParseMatches(name);
      NoFinalNewline(device, Decimal(turn), kind);
      EndingOf(NameOf(r.device, g, r.kind), "\n");
      OneDecomposition(device, Decimal(turn), kind, r.device, g, r.kind);
    }
  }

  /** The longest turn that round-trips is the largest number of nineteen digits. */
  lemma RoundTripExactly(device: string, turn: nat, kind: Kind)
    requires SafeDeviceId(device)
    ensures ParseFilename(Filename(device, turn, kind).value) == Some(Recording(device, turn, kind)) <==>
              turn < 10_000_000_000_000_000_000
  {
    FilenameRoundTrip(device, turn, kind);
    DecimalLength(turn, 19);
    assert PowerOfTen(10) == 10_000_000_000;
    assert PowerOfTen(19) == 10_000_000_000_000_000_000;
  }

  /** Names as they stand in the directory. */
  lemma NamesWritten(device: string)
    requires SafeDeviceId(device)
    ensures Filename(device, 7, Stt) == Some(device + "_7.wav")
    ensures Filename(device, 120, Tts) == Some(device + "_120_tts.wav")
  {
    OnesDigit(7);
    OnesDigit(1);
    DecimalReads(1, 2);
    DecimalReads(12, 0);
    assert Decimal(120) == "120";
    assert device + "_" + "7" + "" + ".wav" == device + "_7.wav";
    assert device + "_" + "120" + "_tts" + ".wav" == device + "_120_tts.wav";
  }

  lemma SameStem(a: string, b: string, ext: string)
    requires a + ext == b + ext
    ensures a == b
  {
    EndingOf(a, ext);
    EndingOf(b, ext);
  }

  lemma OneDecomposition(d1: string, g1: string, k1: Kind, d2: string, g2: string, k2: Kind)
    requires Digits(g1) && Digits(g2) && |g1| > 0 && |g2| > 0 && NameOf(d1, g1, k1) == NameOf(d2, g2, k2)
    ensures d1 == d2 && g1 == g2 && k1 == k2
  {
    var c1, c2 := d1 + "_" + g1, d2 + "_" + g2;
    var s1, s2 := c1 + Suffix(k1), c2 + Suffix(k2);
    SameStem(s1, s2, ".wav");
    assert s1[|s1| - 1] == if k1 == Tts then 's' else g1[|g1| - 1];
    assert s2[|s2| - 1] == if k2 == Tts then 's' else g2[|g2| - 1];
    SameStem(c1, c2, Suffix(k1));
    TrailingAfter(d1, g1);
    TrailingAfter(d2, g2);
    assert c1[..|d1|] == d1 && c2[..|d1|] == d2;
    assert c1[|d1| + 1..] == g1 && c2[|d1| + 1..] == g2;
  }

  /** No two recordings share a name. */
  lemma FilenameInjective(a: Recording, b: Recording)
    requires SafeDeviceId(a.device) && SafeDeviceId(b.device)
    requires Filename(a.device, a.turn, a.kind) == Filename(b.device, b.turn, b.kind)
    ensures a == b
  {
    OneDecomposition(a.device, Decimal(a.turn), a.kind, b.device, Decimal(b.turn), b.kind);
    DecimalValue(a.turn);
    DecimalValue(b.turn);
  }

  // ---- Retention

  predicate OwnedBy(device: string, name: string) {
    SafeDeviceId(device) && ParseFilename(name).Some? && ParseFilename(name).value.device == device
  }

  function TurnOf(name: string): nat {
    if ParseFilename(name).Some? then ParseFilename(name).value.turn else 0
  }

  /** The newest `keep` of these turns: that many, or all there are, and every one above every turn left out. */
  ghost predicate Newest(kept: set<nat>, turns: set<nat>, keep: int) {
    && kept <= turns
    && |kept| == (if keep < 0 then 0 else if keep < |turns| then keep else |turns|)
    && forall t, u :: t in kept && u in turns && u !in kept ==> u < t
  }

  /** What a pruning must leave of a device's files, given which deletions fail. */
  ghost predicate PrunedTo(after: set<string>, before: set<string>, device: string, kept: set<nat>,
                           fails: string -> bool) {
    forall n :: n in after <==> n in before && !(OwnedBy(device, n) && TurnOf(n) !in kept && !fails(n))
  }

  function OwnTurns(files: set<string>, device: string): set<nat> {
    set n | n in files && OwnedBy(device, n) :: TurnOf(n)
  }

  predicate IsMax(m: nat, s: set<nat>) {
    m in s && forall x :: x in s ==> x <= m
  }

  lemma {:induction false} MaxOf(s: set<nat>) returns (m: nat)
    requires s != {}
    ensures IsMax(m, s)
    decreases |s|
  {
    m :| m in s;
    var rest := s - {m};
    assert s == rest + {m};
    if rest != {} {
      var top := MaxOf(rest);
      m := if top > m then top else m;
    }
  }

  /** `kept` are the newest so far, and `rest` are all below them. */
  ghost predicate SplitAt(kept: set<nat>, rest: set<nat>, turns: set<nat>) {
    && kept + rest == turns && kept !! rest && |kept| + |rest| == |turns|
    && forall t, u :: t in kept && u in rest ==> u < t
  }

  lemma MoveMax(kept: set<nat>, rest: set<nat>, turns: set<nat>, top: nat)
    requires SplitAt(kept, rest, turns) && IsMax(top, rest)
    ensures SplitAt(kept + {top}, rest - {top}, turns)
  {
    assert |kept + {top}| == |kept| + 1 && |rest - {top}| == |rest| - 1;
    forall u | u in rest - {top} ensures u < top {
    }
  }

  /** sorted(turns, reverse=True)[:max(keep, 0)] */
  method NewestTurns(turns: set<nat>, keep: int) returns (kept: set<nat>)
    ensures Newest(kept, turns, keep)
  {
    kept := {};
    var rest := turns;
    while |kept| < keep && rest != {}
      invariant SplitAt(kept, rest, turns)
      invariant |kept| <= if keep < 0 then 0 else keep
      decreases |rest|
    {
      ghost var greatest := MaxOf(rest);
      var top :| top in rest && IsMax(top, rest);
      MoveMax(kept, rest, turns, top);
      kept, rest := kept + {top}, rest - {top};
    }
  }

  class Store {
    var files: set<string>

    constructor ()
      ensures files == {}
    {
      files := {};
    }

    /** Keep exactly the device's newest turns, both kinds of each; another device's files are not touched, and
        a deletion that fails leaves its file. */
    method Prune(device: string, keep: int, fails: string -> bool) returns (removed: set<string>, ghost kept: set<nat>)
      modifies this
      ensures Newest(kept, OwnTurns(old(files), device), keep)
      ensures PrunedTo(files, old(files), device, kept, fails)
      ensures removed == old(files) - files
    {
      var names := set n | n in files && OwnedBy(device, n);
      var turns := set n | n in names :: TurnOf(n);
      assert turns == OwnTurns(files, device);
      var newest := NewestTurns(turns, keep);
      kept, removed := newest, {};
      removed := DeleteAll(names, newest, fails);
    }

    method DeleteAll(names: set<string>, newest: set<nat>, fails: string -> bool) returns (removed: set<string>)
      modifies this
      ensures files == old(files) - removed && removed <= names
      ensures forall n :: n in names ==> (n in removed <==> TurnOf(n) !in newest && !fails(n))
    {
      removed := {};
      var left := names;
      while left != {}
        invariant left <= names && removed <= names - left && files == old(files) - removed
        invariant forall n :: n in names - left ==> (n in removed <==> TurnOf(n) !in newest && !fails(n))
        decreases |left|
      {
        var n :| n in left;
        left := left - {n};
        if TurnOf(n) !in newest && !fails(n) {
          files, removed := files - {n}, removed + {n};
        }
      }
    }

    /** Write one recording and prune. None when the turn cannot be named or there is no audio. */
    method Save(device: string, turn: int, kind: Kind, hasAudio: bool, keep: int, fails: string -> bool)
      returns (name: Option<string>, ghost kept: set<nat>)
      modifies this
      ensures name == if hasAudio then Filename(device, turn, kind) else None
      ensures name.None? ==> files == old(files)
      ensures name.Some? ==> Newest(kept, OwnTurns(old(files) + {name.value}, device), keep)
                             && PrunedTo(files, old(files) + {name.value}, device, kept, fails)
    {
      name, kept := Filename(device, turn, kind), {};
      if name.None? || !hasAudio {
        return None, {};
      }
      files := files + {name.value};
      var removed;
      removed, kept := Prune(device, keep, fails);
    }

    /** The recording, only if it exists and its name says it is this device's. */
    function Resolve(device: string, name: string): Option<string>
      reads this
    {
      if OwnedBy(device, name) && name in files then Some(name) else None
    }
  }

  /** One device's recordings are never served to another. */
  lemma OwnershipIsExclusive(a: string, b: string, turn: nat, kind: Kind)
    requires SafeDeviceId(a) && SafeDeviceId(b)
    ensures OwnedBy(b, Filename(a, turn, kind).value) <==> a == b && |Decimal(turn)| <= 19
  {
    FilenameRoundTrip(a, turn, kind);
  }

  /** A new turn that is the device's newest survives its own pruning. */
  lemma NewestTurnSurvives(before: set<string>, after: set<string>, device: string, turn: nat, kind: Kind, keep: int,
                           kept: set<nat>, fails: string -> bool)
    requires SafeDeviceId(device) && keep >= 1 && Filename(device, turn, kind).value in before
    requires forall t :: t in OwnTurns(before, device) ==> t <= turn
    requires Newest(kept, OwnTurns(before, device), keep) && PrunedTo(after, before, device, kept, fails)
    ensures Filename(device, turn, kind).value in after
  {
    var name := Filename(device, turn, kind).value;
    FilenameRoundTrip(device, turn, kind);
    if |Decimal(turn)| <= 19 {
      assert TurnOf(name) == turn && turn in OwnTurns(before, device);
      TopIsKept(kept, OwnTurns(before, device), keep, turn);
    }
  }

  lemma TopIsKept(kept: set<nat>, turns: set<nat>, keep: int, top: nat)
    requires Newest(kept, turns, keep) && keep >= 1 && top in turns && forall t :: t in turns ==> t <= top
    ensures top in kept
  {
    assert turns != {};
    assert |kept| >= 1;
    assert kept != {};
    var t :| t in kept;
    assert t <= top;
  }

  /** There is only one such choice. */
  lemma NewestUnique(a: set<nat>, b: set<nat>, turns: set<nat>, keep: int)
    requires Newest(a, turns, keep) && Newest(b, turns, keep)
    ensures a == b
  {
    if !(a <= b) {
      var x :| x in a && x !in b;
      var y := ProperGap(a, b, x);
    } else {
      SubsetEqual(a, b);
    }
  }

  lemma ProperGap(a: set<nat>, b: set<nat>, x: nat) returns (y: nat)
    requires |a| == |b| && x in a && x !in b
    ensures y in b && y !in a
  {
    if b <= a {
      SubsetSize(b, a - {x});
      assert false;
    }
    y :| y in b && y !in a;
  }

  lemma SubsetEqual(a: set<nat>, b: set<nat>)
    requires |a| == |b| && a <= b
    ensures a == b
  {
    if y :| y in b && y !in a {
      SubsetSize(a, b - {y});
    }
  }
}
