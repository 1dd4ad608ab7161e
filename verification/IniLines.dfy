/** What lines mean that the dump never writes, and what becomes of a dump without sections. */
module IniLines {
  import opened Ts
  import opened IniDict
  import opened IniText
  import opened IniRoundTrip
  import opened IniParser

  // ---- Quoted values and comments

  /** Two quotes alone are an empty value. */
  function Emptied(v: string): string {
    if v == "\"\"" || v == "''" then "" else v
  }

  lemma UntilAt(a: string, c: char, b: string, stops: string)
    requires c in stops && forall i :: 0 <= i < |a| ==> a[i] !in stops
    ensures Until(a + [c] + b, stops) == |a|
    ensures (a + [c] + b)[..|a|] == a
  {
    var s := a + [c] + b;
    assert forall i :: 0 <= i < |a| ==> s[i] == a[i];
    UntilIs(s, stops, |a|);
  }

  /** A value in quotes of either kind is what is between them, whatever follows. */
  lemma QuotedValue(q: char, v: string, tail: string)
    requires (q == '"' || q == '\'') && v != "" && q !in v
    ensures ValueOf([q] + (v + [q] + tail)) == Emptied(Strip(v))
  {
    var rest := [q] + (v + [q] + tail);
    assert rest[1..] == v + [q] + tail;
    UntilAt(v, q, tail, [q]);
    hide Strip, Until;
    assert RawValue(rest) == v;
  }

  /** Any other value ends where a comment begins. */
  lemma CommentedValue(v: string, c: char, tail: string)
    requires v != "" && v[0] != '"' && v[0] != '\'' && ';' !in v && '#' !in v && (c == ';' || c == '#')
    ensures ValueOf(v + [c] + tail) == Emptied(Strip(v))
  {
    UntilAt(v, c, tail, ";#");
    hide Strip, Until;
    assert RawValue(v + [c] + tail) == v;
  }

  // ---- Keys and section names

  predicate Blank(s: string) {
    forall i :: 0 <= i < |s| ==> IsSpace(s[i])
  }

  /** Nothing to strip, and not empty. */
  predicate Trim(s: string) {
    s != "" && !IsSpace(s[0]) && !IsSpace(s[|s| - 1])
  }

  lemma {:induction false} StripLeftBlanks(blanks: string, s: string)
    requires Blank(blanks) && s != "" && !IsSpace(s[0])
    ensures StripLeft(blanks + s) == s
  {
    if blanks == "" {
      assert blanks + s == s;
    } else {
      assert (blanks + s)[1..] == blanks[1..] + s;
      StripLeftBlanks(blanks[1..], s);
    }
  }

  /** Blanks around a string are what stripping removes. */
  lemma StripAround(a: string, s: string, b: string)
    requires Blank(a) && Trim(s) && Blank(b)
    ensures Strip(a + s + b) == s
  {
    assert a + s + b == a + (s + b);
    StripLeftBlanks(a, s + b);
    StripRightBlanks(s, b);
  }

  const UPPER := "ABCDEFGHIJKLMNOPQRSTUVWXYZ"
  const LOWER := "abcdefghijklmnopqrstuvwxyz"

  /** Letters are lowered one by one, and nothing else is changed. */
  lemma LowerIs(s: string, i: nat, n: nat)
    requires i < |s| && n < 26
    ensures s[i] == UPPER[n] ==> Lower(s)[i] == LOWER[n]
    ensures s[i] !in UPPER ==> Lower(s)[i] == s[i]
  {
    assert UPPER[n] == ('A' as int + n) as char && LOWER[n] == ('a' as int + n) as char;
    if 'A' <= s[i] <= 'Z' {
      var m := s[i] as int - 'A' as int;
      assert UPPER[m] == ('A' as int + m) as char;
    }
  }

  /** Blanks are the six of ASCII. */
  lemma BlanksAre(c: char)
    ensures IsSpace(c) <==> c in " \t\n\r" || c as int == 11 || c as int == 12
  {
    assert " \t\n\r" == [' ', '\t', '\n', '\r'];
  }

  lemma KeyLine(k: string, b: string, after: string)
    requires Trim(k) && '=' !in k && '=' !in b && after != "" && !IsSpace(after[|after| - 1])
    ensures var line := k + b + "=" + after;
            && Trim(line) && line[0] == k[0] && Until(line, "=") == |k + b| < |line|
            && line[..|k + b|] == k + b && line[|k + b| + 1..] == after
  {
    UntilIs(k + b + "=" + after, "=", |k + b|);
  }

  /** Only the stripped line counts. */
  lemma StrippedFirst(input: string, line: string)
    requires Strip(input) == line && Strip(line) == line
    ensures ParseLine(input) == ParseLine(line)
  {
    hide Strip, Lower, Until, ValueOf, StripLeft;
  }

  lemma TrimStays(s: string)
    requires Trim(s)
    ensures Strip(s) == s
  {
    TightStays(s);
  }

  lemma KeyStripped(k: string, b: string)
    requires Trim(k) && Blank(b)
    ensures Strip(k + b) == k
  {
    assert "" + k + b == k + b;
    StripAround("", k, b);
  }

  /** A key in any case, an equals sign and a value, with blanks anywhere around: the key in lower
      case, and what the value means. */
  lemma KeyAndRest(a: string, k: string, b: string, rest: string, c: string)
    requires Blank(a) && Blank(b) && Blank(c) && Trim(k) && Trim(rest)
    requires '=' !in k && '=' !in b && k[0] != '#' && k[0] != '['
    ensures ParseLine(a + (k + b + "=" + rest) + c) == Pair(Lower(k), ValueOf(rest))
    ensures ParseLine(a + (k + b + "=" + (" " + rest)) + c) == Pair(Lower(k), ValueOf(rest))
  {
    hide Strip, Lower, Until, ValueOf, StripLeft, Blank, ParseLine;
    KeyWith(a, k, b, rest, c);
    KeyWith(a, k, b, " " + rest, c);
    StripLeftOne(rest);
  }

  lemma StripLeftOne(rest: string)
    requires Trim(rest)
    ensures StripLeft(rest) == rest && StripLeft(" " + rest) == rest
  {
    assert (" " + rest)[1..] == rest;
  }

  lemma KeyWith(a: string, k: string, b: string, after: string, c: string)
    requires Blank(a) && Blank(b) && Blank(c) && Trim(k) && after != "" && !IsSpace(after[|after| - 1])
    requires '=' !in k && '=' !in b && k[0] != '#' && k[0] != '['
    ensures ParseLine(a + (k + b + "=" + after) + c) == Pair(Lower(k), ValueOf(StripLeft(after)))
  {
    hide Strip, Lower, Until, ValueOf, StripLeft, Blank, ParseLine;
    var line := k + b + "=" + after;
    KeyLine(k, b, after);
    KeyStripped(k, b);
    StripAround(a, line, c);
    TrimStays(line);
    StrippedFirst(a + line + c, line);
    ParseLineIs(line, |k + b|);
  }

  lemma BracketLine(inside: string, more: string)
    requires inside != "" && ']' !in inside && (more == "" || more[|more| - 1] == ']')
    ensures var line := "[" + inside + "]" + more;
            && Trim(line) && line[0] == '[' && line[|line| - 1] == ']'
            && Until(line[1..], "]") == |inside| && line[1..][..|inside|] == inside
  {
    var line := "[" + inside + "]" + more;
    assert line[1..] == inside + "]" + more;
    UntilIs(line[1..], "]", |inside|);
  }

  lemma SectionIs(line: string)
    requires line != "" && line[0] == '[' && line[|line| - 1] == ']' && Strip(line) == line
    requires Until(line[1..], "]") != 0
    ensures ParseLine(line) == Section(Some(Lower(Strip(line[1..][..Until(line[1..], "]")]))))
  {
    hide Strip, Lower, Until, ValueOf, StripLeft;
  }

  /** A name in brackets, with blanks anywhere: the section's name in lower case, up to the first
      closing bracket. */
  lemma BracketedName(a: string, b: string, name: string, c: string, more: string, d: string)
    requires Blank(a) && Blank(b) && Blank(c) && Blank(d) && Trim(name)
    requires ']' !in b + name + c && (more == "" || more[|more| - 1] == ']')
    ensures ParseLine(a + ("[" + (b + name + c) + "]" + more) + d) == Section(Some(Lower(name)))
  {
    var inside := b + name + c;
    var line := "[" + inside + "]" + more;
    hide Strip, Lower, Until, ValueOf, StripLeft, Blank, ParseLine;
    BracketLine(inside, more);
    StripAround(b, name, c);
    StripAround(a, line, d);
    TrimStays(line);
    StrippedFirst(a + line + d, line);
    SectionIs(line);
  }

  // ---- Continued lines

  /** A backslash at the end of a line joins it with the next one. */
  lemma ContinuedLine(l: Loader, a: string, b: string)
    requires l.slots != [] && l.pending == ""
    ensures Feed(l, a + "\\" + "\n") == l.(pending := a)
    ensures Feed(Feed(l, a + "\\" + "\n"), b) == Feed(l, a + b)
  {
    hide StripRight, ParseLine, Take;
    var line := a + "\\";
    StripRightBlanks(line, "\n");
    assert line[..|line| - 1] == a;
    assert l.pending + (line + "\n") == line + "\n" && l.pending + (a + b) == a + b;
    TakeForgets(l, a, ParseLine(StripRight(a + b)));
  }

  lemma TakeForgets(l: Loader, pending: string, line: Line)
    requires l.slots != []
    ensures Take(l.(pending := pending), line) == Take(l, line)
  {
    hide Put, Strip, Lower;
  }

  // ---- A dump without sections

  /** All keys have a colon, and every line of the dump says what it means. */
  predicate BareGood(slots: seq<Slot>) {
    forall i :: 0 <= i < |slots| && slots[i].Used? ==>
      && HasColon(slots[i].key) && GoodKey(slots[i].key) && slots[i].val.Some? && GoodValue(slots[i].val.value)
      && |slots[i].key| + |slots[i].val.value| + 4 < LINE_SIZE
  }

  function BareLine(k: string, v: string): string {
    k + " = " + v
  }

  lemma BareLineIs(k: string, v: string)
    requires GoodKey(k) && GoodValue(v) && |k| + |v| + 4 < LINE_SIZE
    ensures BareLine(k, v) + "\n" == Tight(k, " ", v) + (if v == "" then " \n" else "\n")
    ensures Fits(BareLine(k, v)) && Ends(BareLine(k, v))
  {
    var line, after := Tight(k, " ", v), if v == "" then " \n" else "\n";
    assert " = " == " " + "=" + " ";
    assert BareLine(k, v) + "\n" == line + after;
    TightIs(k, " ", v);
    StrippedLast(line);
    hide StripRight, Strip, Lower;
    StripRightBlanks(line, after);
  }

  lemma BareFeeds(l: Loader, k: string, v: string)
    requires Steady(l) && GoodKey(k) && GoodValue(v) && |k| + |v| + 4 < LINE_SIZE
    ensures Feed(l, BareLine(k, v) + "\n") == l.(slots := Put(l.slots, l.section + ":" + k, Some(v)))
  {
    hide Tight, ParseLine, StripRight, Strip, Until, Feed, Put, GoodKey, GoodValue, BareLine, Fits, Ends;
    var line := Tight(k, " ", v);
    BareLineIs(k, v);
    TightIs(k, " ", v);
    PairParses(k, " ", v);
    FeedIs(l, line, if v == "" then " \n" else "\n");
  }

  /** What the lines of the dump set in the section without a name. */
  function BareSets(slots: seq<Slot>): seq<(string, Value)> {
    if slots == [] then []
    else
      var last := slots[|slots| - 1];
      BareSets(slots[..|slots| - 1]) + if last.Used? then [(":" + last.key, last.val)] else []
  }

  lemma BareSlot(l: Loader, k: string, v: string)
    requires Steady(l) && l.section == "" && GoodKey(k) && GoodValue(v) && |k| + |v| + 4 < LINE_SIZE
    ensures Feed(l, BareLine(k, v) + "\n") == l.(slots := Put(l.slots, ":" + k, Some(v)))
  {
    hide Feed, Put, GoodKey, GoodValue, Fits, Ends, BareLine;
    BareFeeds(l, k, v);
    assert "" + ":" + k == ":" + k;
  }

  lemma {:induction false} BareLoadable(slots: seq<Slot>)
    requires BareGood(slots)
    ensures Loadable(BareLines(slots))
  {
    hide GoodKey, GoodValue, Fits, Ends, HasColon, BareLine;
    if slots != [] {
      var last := |slots| - 1;
      BareLoadable(slots[..last]);
      if slots[last].Used? {
        BareLineIs(slots[last].key, slots[last].val.value);
        BareLast(slots);
      }
    }
  }

  lemma BareLast(slots: seq<Slot>)
    requires slots != []
    ensures var last := |slots| - 1;
            BareLines(slots) == BareLines(slots[..last]) +
            if slots[last].Used? && slots[last].val.Some? then [BareLine(slots[last].key, slots[last].val.value)]
            else if slots[last].Used? then [slots[last].key + " = " + "(null)"]
            else []
  {
  }

  lemma {:induction false} BareFed(l: Loader, slots: seq<Slot>)
    requires Steady(l) && l.section == "" && BareGood(slots)
    ensures FeedAll(l, BareLines(slots)) == l.(slots := PutAll(l.slots, BareSets(slots)))
  {
    hide Feed, Put, GoodKey, GoodValue, HasColon, BareLine, BareLines;
    if slots == [] {
      NoBareLines();
    } else {
      var last := |slots| - 1;
      BareFed(l, slots[..last]);
      BareLast(slots);
      var lines, sets := BareLines(slots[..last]), BareSets(slots[..last]);
      if slots[last].Used? {
        BareSlot(FeedAll(l, lines), slots[last].key, slots[last].val.value);
        assert BareLines(slots)[..|lines|] == lines && BareSets(slots)[..|sets|] == sets;
      } else {
        assert lines + [] == lines && sets + [] == sets;
      }
    }
  }

  lemma NoBareLines()
    ensures BareLines([]) == []
  {
  }

  /** The map with a colon before every key. */
  function Prefixed(m: map<string, Value>): map<string, Value> {
    map k | k in PrefixedKeys(m) :: m[k[1..]]
  }

  function PrefixedKeys(m: map<string, Value>): (keys: set<string>)
    ensures forall k :: k in keys ==> k != "" && k[1..] in m && k == ":" + k[1..]
  {
    set k | k in m :: ":" + k
  }

  lemma PrefixedHas(m: map<string, Value>, k: string)
    requires k in m
    ensures ":" + k in Prefixed(m) && Prefixed(m)[":" + k] == m[k]
  {
    assert (":" + k)[1..] == k;
  }

  lemma {:induction false} BareSetsAre(all: seq<Slot>, slots: seq<Slot>)
    requires Distinct(all) && slots <= all
    ensures SetsOf(Prefixed(MapOf(all)), BareSets(slots))
    ensures forall j :: 0 <= j < |slots| && slots[j].Used? ==> Covers(BareSets(slots), ":" + slots[j].key)
  {
    hide MapOf, Distinct, Prefixed, Covers;
    if slots != [] {
      var last := |slots| - 1;
      BareSetsAre(all, slots[..last]);
      if slots[last].Used? {
        var one := [(":" + slots[last].key, slots[last].val)];
        SlotValue(all, last);
        PrefixedHas(MapOf(all), slots[last].key);
        OneCovered(":" + slots[last].key, slots[last].val);
        forall j | 0 <= j < |slots| && slots[j].Used? ensures Covers(BareSets(slots), ":" + slots[j].key) {
          CoversConcat(BareSets(slots[..last]), one, ":" + slots[j].key);
          assert j < last ==> slots[..last][j] == slots[j];
        }
      } else {
        assert BareSets(slots) == BareSets(slots[..last]);
        forall j | 0 <= j < |slots| && slots[j].Used? ensures Covers(BareSets(slots), ":" + slots[j].key) {
          assert j < last && slots[..last][j] == slots[j];
        }
      }
    }
  }

  lemma OneCovered(k: string, v: Value)
    ensures Covers([(k, v)], k)
  {
    assert [(k, v)][0].0 == k;
  }

  lemma PrefixedCovered(slots: seq<Slot>, k: string)
    requires Distinct(slots) && k in Prefixed(MapOf(slots))
    ensures Covers(BareSets(slots), k)
  {
    hide Covers, BareSets, SetsOf;
    KeysHave(slots, k[1..]);
    var j := Find(slots, k[1..]);
    hide MapOf, Prefixed;
    BareSetsAre(slots, slots);
    assert slots[j].Used? && ":" + slots[j].key == k;
  }

  lemma BareMap(slots: seq<Slot>)
    requires Distinct(slots)
    ensures SetAll(map[], BareSets(slots)) == Prefixed(MapOf(slots))
  {
    hide SetAll, Covers, SetsOf, Prefixed, MapOf, BareSets, Distinct;
    var m, sets := Prefixed(MapOf(slots)), BareSets(slots);
    BareSetsAre(slots, slots);
    forall k | k in m ensures Covers(sets, k) {
      PrefixedCovered(slots, k);
    }
    SetAllIs(m, sets);
    assert SetAll(map[], sets).Keys == m.Keys;
  }

  /** A dump without sections does not come back as it was: what is loaded has a colon before
      every key, since the loader puts the keys into a section without a name. */
  lemma BareDump(slots: seq<Slot>)
    requires Distinct(slots) && SectionNames(slots) == [] && BareGood(slots)
    ensures var r := Load(Dump(slots));
            r.Some? && Distinct(r.value) && MapOf(r.value) == Prefixed(MapOf(slots))
  {
    hide BareSets, Loadable, FeedAll, LoadFrom, PutAll, SetAll, MapOf, Distinct, Joined, BareGood, Prefixed;
    BareFed(FRESH_LOADER, slots);
    BareLoadable(slots);
    LoadJoined(FRESH_LOADER, BareLines(slots));
    FreshMap();
    PutAllMap(FRESH_LOADER.slots, BareSets(slots));
    BareMap(slots);
  }

  // ---- What kind of line it is

  /** Blank lines say nothing, a number sign makes a comment, brackets make a section, and any
      other line is wrong exactly when it has no equals sign or begins with one. */
  lemma LineKinds(input: string)
    ensures var line, said := Strip(input), ParseLine(input);
            && (said.Empty? <==> line == "")
            && (said.Comment? <==> line != "" && line[0] == '#')
            && (said.Section? <==> line != "" && line[0] == '[' && line[|line| - 1] == ']')
            && (said.Error? <==>
                  && line != "" && line[0] != '#' && !(line[0] == '[' && line[|line| - 1] == ']')
                  && ('=' !in line || line[0] == '='))
  {
    hide Strip, Lower, ValueOf;
    var line := Strip(input);
    if line != "" {
      EqualsAt(line);
    }
    hide Until;
  }

  lemma EqualsAt(line: string)
    requires line != ""
    ensures Until(line, "=") == 0 <==> line[0] == '='
    ensures Until(line, "=") == |line| <==> '=' !in line
  {
  }

  /** Empty brackets set the section that is open once more. */
  lemma RepeatedSection(l: Loader)
    requires l.slots != [] && l.pending == "" && Plain(l.section)
    ensures Feed(l, "[]" + "\n") == l.(slots := Put(l.slots, l.section, None), errs := 0)
  {
    TightStays("[]");
    assert "[]"[1..] == "]";
    UntilIs("]", "]", 0);
    assert ParseLine("[]") == Section(None);
    hide ParseLine, StripRight, Feed, Put, Strip, Lower, Until;
    FeedIs(l, "[]", "\n");
  }

  /** A line that fills the buffer of 1024 characters, with what was pending before it and the
      end of string after it, or one without a newline, makes the load fail. */
  lemma LineTooLong(l: Loader, line: string, rest: string)
    requires l.slots != [] && '\n' !in line
    ensures |l.pending| + |line| + 1 >= 1024 ==> LoadFrom(l, line + "\n" + rest) == None
    ensures line != "" ==> LoadFrom(l, line) == None
  {
    UntilAt(line, '\n', rest, "\n");
    assert line + ['\n'] + rest == line + "\n" + rest;
    UntilIs(line, "\n", |line|);
    hide Feed, Until;
  }

  // ---- How the dump is laid out

  /** A pair in a section: the key filled up to 30 characters, an equals sign between blanks, and
      the value, if there is one. */
  lemma PairLineLayout(sec: string, s: Slot)
    requires Under(sec, s)
    ensures var k, line := s.key[|sec| + 1..], PairLine(sec, s);
            var width := if |k| < 30 then 30 else |k|;
            && width + 3 <= |line| && line[..|k|] == k
            && (forall i :: |k| <= i < width ==> line[i] == ' ')
            && line[width..width + 3] == " = "
            && line[width + 3..] == if s.val == None then "" else s.val.value
  {
    var k, line := s.key[|sec| + 1..], PairLine(sec, s);
    var v := Text(s.val);
    assert line == Padded(k) + " = " + v;
  }

  /** Without sections a missing value is printed as such. */
  lemma BareNull(slots: seq<Slot>, k: string)
    ensures BareLines(slots + [Used(k, None)]) == BareLines(slots) + [k + " = " + "(null)"]
  {
    assert (slots + [Used(k, None)])[..|slots|] == slots;
  }

  /** One section: an empty line, its name in brackets, its pairs, and an empty line. */
  lemma SectionLayout(slots: seq<Slot>, sec: string)
    requires SectionNames(slots) == [sec]
    ensures Dump(slots) == "\n" + ("[" + sec + "]" + "\n") + Joined(PairLines(slots, sec)) + "\n"
  {
    hide Joined, PairLines, SectionLines, SectionNames, Dump;
    DumpEnds(slots);
    SectionJoined(slots, [], sec);
    NothingJoined(slots);
    assert [] + [sec] == [sec];
    Unprefixed("\n" + ("[" + sec + "]" + "\n") + Joined(PairLines(slots, sec)));
  }

  lemma Unprefixed(s: string)
    ensures "" + s == s
  {
  }
}
