/** Loading what was dumped gives the dictionary back. */
module IniRoundTrip {
  import opened Ts
  import opened IniDict
  import opened IniText

  // ---- Well-formed dictionaries

  /** A name that survives stripping and lowering. */
  predicate Plain(s: string) {
    s != "" && Strip(s) == s && Lower(s) == s && '\n' !in s
  }

  predicate GoodName(s: string) {
    Plain(s) && ']' !in s && |s| + 3 < LINE_SIZE
  }

  predicate GoodKey(k: string) {
    Plain(k) && '=' !in k && k[0] != '#' && k[0] != '['
  }

  predicate GoodValue(v: string) {
    && Strip(v) == v && '\n' !in v && ';' !in v && '#' !in v
    && (v != "" ==> v[0] != '"' && v[0] != '\'' && v[|v| - 1] != '\\')
  }

  predicate GoodPair(sec: string, s: Slot)
    requires Under(sec, s)
  {
    var k := s.key[|sec| + 1..];
    GoodKey(k) && GoodValue(Text(s.val)) && |PairLine(sec, s)| + 1 < LINE_SIZE
  }

  /** The part of a key before its first colon. */
  function SectionOf(key: string): string {
    key[..Until(key, ":")]
  }

  /** Every key names a section or lies under one that is listed, and every line of the dump
      says what it means. */
  predicate WellFormed(slots: seq<Slot>) {
    && Distinct(slots) && SectionNames(slots) != []
    && forall i :: 0 <= i < |slots| && slots[i].Used? ==>
         var key := slots[i].key;
         if !HasColon(key) then GoodName(key)
         else
           var sec := SectionOf(key);
           sec in SectionNames(slots) && Under(sec, slots[i]) && GoodPair(sec, slots[i])
  }

  /** What a key reads back as: sections have no value, and a missing value becomes empty. */
  function Normal(key: string, val: Value): Value {
    if HasColon(key) then Some(Text(val)) else None
  }

  function NormalMap(m: map<string, Value>): map<string, Value> {
    map k | k in m :: Normal(k, m[k])
  }

  // ---- Stripping

  lemma {:induction false} StripLeftShorter(s: string)
    ensures |StripLeft(s)| <= |s|
    ensures |StripLeft(s)| == |s| ==> StripLeft(s) == s && (s == "" || !IsSpace(s[0]))
  {
    if s != "" && IsSpace(s[0]) {
      StripLeftShorter(s[1..]);
    }
  }

  lemma {:induction false} StripRightShorter(s: string)
    ensures |StripRight(s)| <= |s|
    ensures |StripRight(s)| == |s| ==> s == "" || !IsSpace(s[|s| - 1])
  {
    if s != "" && IsSpace(s[|s| - 1]) {
      StripRightShorter(s[..|s| - 1]);
    }
  }

  /** A stripped string has no blank at either end. */
  lemma StrippedEnds(s: string)
    requires Strip(s) == s && s != ""
    ensures !IsSpace(s[0]) && !IsSpace(s[|s| - 1])
  {
    StripLeftShorter(s);
    StripRightShorter(StripLeft(s));
  }

  lemma TightStays(s: string)
    requires s == "" || (!IsSpace(s[0]) && !IsSpace(s[|s| - 1]))
    ensures StripLeft(s) == s && StripRight(s) == s && Strip(s) == s
  {
  }

  lemma {:induction false} StripRightBlanks(s: string, blanks: string)
    requires s == "" || !IsSpace(s[|s| - 1])
    requires forall i :: 0 <= i < |blanks| ==> IsSpace(blanks[i])
    ensures StripRight(s + blanks) == s
  {
    if blanks == "" {
      assert s + blanks == s;
    } else {
      assert (s + blanks)[..|s + blanks| - 1] == s + blanks[..|blanks| - 1];
      StripRightBlanks(s, blanks[..|blanks| - 1]);
    }
  }

  lemma UntilIs(s: string, stops: string, i: nat)
    requires i <= |s| && (i < |s| ==> s[i] in stops)
    requires forall j :: 0 <= j < i ==> s[j] !in stops
    ensures Until(s, stops) == i
  {
  }

  // ---- Single lines

  /** The line of a pair, without trailing blanks. */
  function Tight(k: string, blanks: string, v: string): string {
    k + blanks + "=" + if v == "" then "" else " " + v
  }

  lemma TightIs(k: string, blanks: string, v: string)
    requires GoodKey(k) && GoodValue(v) && forall i :: 0 <= i < |blanks| ==> blanks[i] == ' '
    ensures var line := Tight(k, blanks, v);
            && line != "" && line[0] == k[0] && Strip(line) == line && StripRight(line) == line
            && line[|line| - 1] != '\\'
            && Until(line, "=") == |k| + |blanks| < |line|
            && line[..|k| + |blanks|] == k + blanks
            && line[|k| + |blanks| + 1..] == if v == "" then "" else " " + v
  {
    StrippedEnds(k);
    if v != "" {
      StrippedEnds(v);
    }
    var line := Tight(k, blanks, v);
    TightStays(line);
    UntilIs(line, "=", |k| + |blanks|);
  }

  lemma ParseLineIs(line: string, n: nat)
    requires line != "" && line[0] != '#' && line[0] != '[' && Strip(line) == line
    requires Until(line, "=") == n && 0 < n < |line|
    ensures ParseLine(line) == Pair(Lower(Strip(line[..n])), ValueOf(StripLeft(line[n + 1..])))
  {
    hide Strip, Until, ValueOf, StripLeft, Lower;
  }

  lemma TailParses(v: string)
    requires GoodValue(v)
    ensures ValueOf(StripLeft(if v == "" then "" else " " + v)) == v
  {
    ValueParses(v);
    if v != "" {
      assert (" " + v)[1..] == v;
    }
    hide ValueOf;
  }

  /** A key, its padding, the equals sign and the value come apart again. */
  lemma PairParses(k: string, blanks: string, v: string)
    requires GoodKey(k) && GoodValue(v) && forall i :: 0 <= i < |blanks| ==> blanks[i] == ' '
    ensures ParseLine(Tight(k, blanks, v)) == Pair(k, v)
  {
    TightIs(k, blanks, v);
    KeyParses(k, blanks);
    TailParses(v);
    ParseLineIs(Tight(k, blanks, v), |k| + |blanks|);
    hide *;
  }

  lemma KeyParses(k: string, blanks: string)
    requires GoodKey(k) && forall i :: 0 <= i < |blanks| ==> blanks[i] == ' '
    ensures Lower(Strip(k + blanks)) == k
  {
    StrippedEnds(k);
    assert StripLeft(k + blanks) == k + blanks;
    StripRightBlanks(k, blanks);
  }

  lemma ValueParses(v: string)
    requires GoodValue(v)
    ensures ValueOf(v) == v && StripLeft(v) == v
  {
    if v != "" {
      StrippedEnds(v);
      TightStays(v);
    }
    UntilIs(v, ";#", |v|);
    assert v[..|v|] == v;
  }

  function PairBlanks(k: string): string {
    Blanks(if |k| < 30 then 30 - |k| else 0) + " "
  }

  lemma PairLineIs(sec: string, s: Slot)
    requires Under(sec, s)
    ensures var k, v := s.key[|sec| + 1..], Text(s.val);
            && PairLine(sec, s) + "\n" == Tight(k, PairBlanks(k), v) + (if v == "" then " \n" else "\n")
            && s.key == sec + ":" + k
  {
    var k, v := s.key[|sec| + 1..], Text(s.val);
    var blanks := Blanks(if |k| < 30 then 30 - |k| else 0);
    assert PairLine(sec, s) == k + blanks + " = " + v;
    assert " = " == " " + "=" + " ";
  }

  lemma PairLineFeeds(l: Loader, sec: string, s: Slot)
    requires l.slots != [] && l.pending == "" && l.section == sec && Under(sec, s) && GoodPair(sec, s)
    ensures Feed(l, PairLine(sec, s) + "\n") ==
            l.(slots := Put(l.slots, s.key, Some(Text(s.val))), errs := 0)
  {
    var k, v := s.key[|sec| + 1..], Text(s.val);
    assert GoodKey(k) && GoodValue(v);
    PairLineIs(sec, s);
    TightFeeds(l, k, v);
    hide Feed, Tight, PairLine, GoodKey, GoodValue, Under;
  }

  lemma TightFeeds(l: Loader, k: string, v: string)
    requires l.slots != [] && l.pending == "" && GoodKey(k) && GoodValue(v)
    ensures Feed(l, Tight(k, PairBlanks(k), v) + (if v == "" then " \n" else "\n")) ==
            l.(slots := Put(l.slots, l.section + ":" + k, Some(v)), errs := 0)
  {
    var line := Tight(k, PairBlanks(k), v);
    TightIs(k, PairBlanks(k), v);
    PairParses(k, PairBlanks(k), v);
    hide Feed, Tight, ParseLine, Until, Put, GoodKey, GoodValue, StripRight, Strip;
    FeedIs(l, line, if v == "" then " \n" else "\n");
  }

  lemma FeedOf(l: Loader, text: string, line: string)
    requires l.slots != [] && l.pending == "" && StripRight(text) == line
    requires line == "" || line[|line| - 1] != '\\'
    ensures Feed(l, text) == Take(l, ParseLine(line))
  {
    hide ParseLine, Take, StripRight;
    assert l.pending + text == text;
  }

  lemma FeedIs(l: Loader, line: string, after: string)
    requires l.slots != [] && l.pending == "" && StripRight(line) == line
    requires line == "" || line[|line| - 1] != '\\'
    requires forall i :: 0 <= i < |after| ==> IsSpace(after[i])
    ensures Feed(l, line + after) == Take(l, ParseLine(line))
  {
    hide ParseLine, Take, StripRight, Feed;
    StrippedLast(line);
    StripRightBlanks(line, after);
    FeedOf(l, line + after, line);
  }

  lemma StrippedLast(s: string)
    requires StripRight(s) == s
    ensures s == "" || !IsSpace(s[|s| - 1])
  {
    StripRightShorter(s);
  }

  lemma BlankLine(l: Loader)
    requires l.slots != [] && l.pending == ""
    ensures Feed(l, "" + "\n") == l
  {
    FeedIs(l, "", "\n");
    hide Feed, StripRight;
  }

  lemma SectionParses(s: string)
    requires GoodName(s)
    ensures var line := "[" + s + "]"; ParseLine(line) == Section(Some(s)) && StripRight(line) == line
  {
    var line := "[" + s + "]";
    TightStays(line);
    assert line[1..] == s + "]";
    UntilIs(line[1..], "]", |s|);
    assert line[1..][..|s|] == s;
    hide Strip, StripRight, Until, ValueOf;
  }

  lemma SectionLine(l: Loader, s: string)
    requires l.slots != [] && l.pending == "" && GoodName(s)
    ensures Feed(l, "[" + s + "]" + "\n") == l.(slots := Put(l.slots, s, None), section := s, errs := 0)
  {
    var line := "[" + s + "]";
    SectionParses(s);
    assert line[|line| - 1] == ']';
    hide Feed, ParseLine, StripRight, GoodName;
    FeedIs(l, line, "\n");
  }

  // ---- Loading line by line

  function FeedAll(l: Loader, lines: seq<string>): (r: Loader)
    requires l.slots != []
    ensures r.slots != []
  {
    if lines == [] then l else Feed(FeedAll(l, lines[..|lines| - 1]), lines[|lines| - 1] + "\n")
  }

  lemma {:induction false} FeedAllConcat(l: Loader, a: seq<string>, b: seq<string>)
    requires l.slots != []
    ensures FeedAll(l, a + b) == FeedAll(FeedAll(l, a), b)
  {
    hide Feed;
    if b == [] {
      assert a + b == a;
    } else {
      FeedAllConcat(l, a, b[..|b| - 1]);
      assert (a + b)[..|a + b| - 1] == a + b[..|b| - 1];
    }
  }

  predicate Fits(line: string) {
    '\n' !in line && |line| + 1 < LINE_SIZE
  }

  /** The line is not continued by the next one. */
  predicate Ends(line: string) {
    var text := StripRight(line + "\n");
    text == "" || text[|text| - 1] != '\\'
  }

  predicate Loadable(lines: seq<string>) {
    forall i :: 0 <= i < |lines| ==> Fits(lines[i]) && Ends(lines[i])
  }

  lemma {:induction false} JoinedHead(lines: seq<string>)
    requires lines != []
    ensures Joined(lines) == lines[0] + "\n" + Joined(lines[1..])
  {
    var last := |lines| - 1;
    if last > 0 {
      JoinedHead(lines[..last]);
      assert lines[1..][..last - 1] == lines[..last][1..];
    } else {
      assert lines[..0] == [] && lines[1..] == [];
    }
  }

  lemma FeedEnds(l: Loader, line: string)
    requires l.slots != [] && l.pending == "" && Ends(line)
    ensures Feed(l, line + "\n").pending == ""
  {
    assert l.pending + (line + "\n") == line + "\n";
    hide StripRight, ParseLine;
  }

  lemma {:induction false} LoadJoined(l: Loader, lines: seq<string>)
    requires l.slots != [] && l.pending == "" && Loadable(lines)
    ensures LoadFrom(l, Joined(lines)) == if FeedAll(l, lines).errs != 0 then None else Some(FeedAll(l, lines).slots)
    decreases |lines|
  {
    hide Feed, Ends;
    if lines != [] {
      JoinedHead(lines);
      var line, rest, text := lines[0], lines[1..], Joined(lines);
      assert Fits(line) && Ends(line);
      UntilIs(text, "\n", |line|);
      assert text[..|line| + 1] == line + "\n" && text[|line| + 1..] == Joined(rest);
      FeedEnds(l, line);
      FeedOne(l, line);
      assert lines == [line] + rest;
      FeedAllConcat(l, [line], rest);
      LoadJoined(Feed(l, line + "\n"), rest);
    }
  }

  lemma FeedOne(l: Loader, line: string)
    requires l.slots != []
    ensures FeedAll(l, [line]) == Feed(l, line + "\n")
  {
    assert [line][..0] == [];
    assert FeedAll(l, []) == l;
    hide Feed;
  }

  // ---- What the dumped lines set

  function PairSets(slots: seq<Slot>, sec: string): seq<(string, Value)> {
    if slots == [] then []
    else
      var last := slots[|slots| - 1];
      PairSets(slots[..|slots| - 1], sec) + if Under(sec, last) then [(last.key, Some(Text(last.val)))] else []
  }

  function SectionSets(slots: seq<Slot>, secs: seq<string>): seq<(string, Value)> {
    if secs == [] then []
    else
      var last := secs[|secs| - 1];
      SectionSets(slots, secs[..|secs| - 1]) + ([(last, None)] + PairSets(slots, last))
  }

  function PutAll(slots: seq<Slot>, sets: seq<(string, Value)>): (r: seq<Slot>)
    requires slots != []
    ensures r != []
  {
    if sets == [] then slots
    else Put(PutAll(slots, sets[..|sets| - 1]), sets[|sets| - 1].0, sets[|sets| - 1].1)
  }

  lemma {:induction false} PutAllConcat(slots: seq<Slot>, a: seq<(string, Value)>, b: seq<(string, Value)>)
    requires slots != []
    ensures PutAll(slots, a + b) == PutAll(PutAll(slots, a), b)
  {
    hide Put;
    if b == [] {
      assert a + b == a;
    } else {
      PutAllConcat(slots, a, b[..|b| - 1]);
      assert (a + b)[..|a + b| - 1] == a + b[..|b| - 1];
    }
  }

  predicate Steady(l: Loader) {
    l.slots != [] && l.pending == "" && l.errs == 0
  }

  predicate GoodUnder(slots: seq<Slot>, sec: string) {
    forall i :: 0 <= i < |slots| && Under(sec, slots[i]) ==> GoodPair(sec, slots[i])
  }

  lemma {:induction false} PairsFed(l: Loader, slots: seq<Slot>, sec: string)
    requires Steady(l) && l.section == sec && GoodUnder(slots, sec)
    ensures FeedAll(l, PairLines(slots, sec)) == l.(slots := PutAll(l.slots, PairSets(slots, sec)))
  {
    hide Feed, Put, Under, PairLine, GoodPair;
    if slots != [] {
      var last := |slots| - 1;
      PairsFed(l, slots[..last], sec);
      var lines, sets := PairLines(slots[..last], sec), PairSets(slots[..last], sec);
      if Under(sec, slots[last]) {
        PairLineFeeds(FeedAll(l, lines), sec, slots[last]);
        assert PairLines(slots, sec)[..|lines|] == lines && PairSets(slots, sec)[..|sets|] == sets;
      } else {
        assert lines + [] == lines && sets + [] == sets;
      }
    }
  }

  lemma SectionFed(l: Loader, slots: seq<Slot>, sec: string)
    requires Steady(l) && GoodName(sec) && GoodUnder(slots, sec)
    ensures FeedAll(l, ["", "[" + sec + "]"] + PairLines(slots, sec)) ==
            l.(slots := PutAll(l.slots, [(sec, None)] + PairSets(slots, sec)), section := sec)
  {
    hide Feed, Put, GoodName, GoodUnder, PairLines, PairSets;
    var head := "[" + sec + "]";
    BlankLine(l);
    SectionLine(l, sec);
    FeedOne(l, "");
    assert FeedAll(l, ["", head]) == Feed(l, head + "\n") by {
      assert ["", head][..1] == [""];
    }
    FeedAllConcat(l, ["", head], PairLines(slots, sec));
    var m := l.(slots := Put(l.slots, sec, None), section := sec);
    PairsFed(m, slots, sec);
    var own: seq<(string, Value)> := [(sec, None)];
    PutAllConcat(l.slots, own, PairSets(slots, sec));
    assert own[..0] == [] && PutAll(l.slots, own[..0]) == l.slots;
    assert PutAll(l.slots, own) == m.slots;
  }

  lemma {:induction false} SectionsFed(l: Loader, slots: seq<Slot>, secs: seq<string>)
    requires Steady(l)
    requires forall i :: 0 <= i < |secs| ==> GoodName(secs[i]) && GoodUnder(slots, secs[i])
    ensures var m := FeedAll(l, SectionLines(slots, secs));
            Steady(m) && m.slots == PutAll(l.slots, SectionSets(slots, secs))
  {
    hide Feed, Put, GoodName, GoodUnder, PairLines, PairSets;
    if secs != [] {
      var last := |secs| - 1;
      SectionsFed(l, slots, secs[..last]);
      var m, sec := FeedAll(l, SectionLines(slots, secs[..last])), secs[last];
      var more := ["", "[" + sec + "]"] + PairLines(slots, sec);
      SectionFed(m, slots, sec);
      assert SectionLines(slots, secs) == SectionLines(slots, secs[..last]) + more;
      FeedAllConcat(l, SectionLines(slots, secs[..last]), more);
      PutAllConcat(l.slots, SectionSets(slots, secs[..last]), [(sec, None)] + PairSets(slots, sec));
    }
  }

  // ---- Every line of the dump can be loaded

  lemma {:induction false} LoadableConcat(a: seq<string>, b: seq<string>)
    requires Loadable(a) && Loadable(b)
    ensures Loadable(a + b)
  {
    hide Fits, Ends;
  }

  lemma PairLoadable(sec: string, s: Slot)
    requires Under(sec, s) && GoodPair(sec, s)
    ensures Fits(PairLine(sec, s)) && Ends(PairLine(sec, s))
  {
    hide Tight, StripRight, PairLine, Until, Strip, Lower, GoodKey, GoodValue;
    var k, v := s.key[|sec| + 1..], Text(s.val);
    PairLineIs(sec, s);
    TightIs(k, PairBlanks(k), v);
    var line := Tight(k, PairBlanks(k), v);
    StrippedLast(line);
    StripRightBlanks(line, if v == "" then " \n" else "\n");
    PairHasNoNewline(sec, s);
  }

  lemma PairHasNoNewline(sec: string, s: Slot)
    requires Under(sec, s) && GoodPair(sec, s)
    ensures '\n' !in PairLine(sec, s)
  {
    hide Strip, Lower;
  }

  lemma HeadLoadable(sec: string)
    requires GoodName(sec)
    ensures Loadable(["", "[" + sec + "]"])
  {
    var line := "[" + sec + "]";
    SectionParses(sec);
    StrippedLast(line);
    StripRightBlanks(line, "\n");
    StripRightBlanks("", "\n");
    assert "" + "\n" == "\n";
    hide ParseLine, StripRight, Strip, Lower;
  }

  lemma {:induction false} PairsLoadable(slots: seq<Slot>, sec: string)
    requires GoodUnder(slots, sec)
    ensures Loadable(PairLines(slots, sec))
  {
    hide Fits, Ends, GoodPair, PairLine;
    if slots != [] {
      var last := slots[|slots| - 1];
      PairsLoadable(slots[..|slots| - 1], sec);
      if Under(sec, last) {
        PairLoadable(sec, last);
      }
    }
  }

  lemma {:induction false} SectionsLoadable(slots: seq<Slot>, secs: seq<string>)
    requires forall i :: 0 <= i < |secs| ==> GoodName(secs[i]) && GoodUnder(slots, secs[i])
    ensures Loadable(SectionLines(slots, secs))
  {
    hide Loadable, GoodName, GoodUnder, PairLines;
    if secs == [] {
      NoLines();
    } else {
      var last := |secs| - 1;
      SectionsLoadable(slots, secs[..last]);
      HeadLoadable(secs[last]);
      PairsLoadable(slots, secs[last]);
      LoadableConcat(SectionLines(slots, secs[..last]), ["", "[" + secs[last] + "]"]);
      LoadableConcat(SectionLines(slots, secs[..last]) + ["", "[" + secs[last] + "]"], PairLines(slots, secs[last]));
    }
  }

  lemma NoLines()
    ensures Loadable([])
    ensures Loadable([""])
  {
    StripRightBlanks("", "\n");
    assert "" + "\n" == "\n";
  }

  // ---- The map that comes back

  function SetAll(m: map<string, Value>, sets: seq<(string, Value)>): map<string, Value> {
    if sets == [] then m
    else SetAll(m, sets[..|sets| - 1])[sets[|sets| - 1].0 := sets[|sets| - 1].1]
  }

  lemma {:induction false} PutAllMap(slots: seq<Slot>, sets: seq<(string, Value)>)
    requires slots != [] && Distinct(slots)
    ensures var r := PutAll(slots, sets); Distinct(r) && MapOf(r) == SetAll(MapOf(slots), sets)
  {
    hide Put, MapOf, Distinct;
    if sets != [] {
      var last := |sets| - 1;
      PutAllMap(slots, sets[..last]);
      PutIs(PutAll(slots, sets[..last]), sets[last].0, sets[last].1);
    }
  }

  /** Every setting is one of the map `m`'s own. */
  predicate SetsOf(m: map<string, Value>, sets: seq<(string, Value)>) {
    forall i :: 0 <= i < |sets| ==> sets[i].0 in m && sets[i].1 == m[sets[i].0]
  }

  predicate Covers(sets: seq<(string, Value)>, key: string) {
    exists i :: 0 <= i < |sets| && sets[i].0 == key
  }

  lemma {:induction false} SetAllIs(m: map<string, Value>, sets: seq<(string, Value)>)
    requires SetsOf(m, sets)
    ensures forall k :: k in SetAll(map[], sets) <==> Covers(sets, k)
    ensures forall k :: k in SetAll(map[], sets) ==> k in m && SetAll(map[], sets)[k] == m[k]
  {
    if sets != [] {
      var last := |sets| - 1;
      SetAllIs(m, sets[..last]);
      forall k ensures Covers(sets, k) <==> Covers(sets[..last], k) || k == sets[last].0 {
        CoversConcat(sets[..last], [sets[last]], k);
        assert sets == sets[..last] + [sets[last]];
        assert [sets[last]][0] == sets[last];
      }
    }
  }

  lemma CoversConcat(a: seq<(string, Value)>, b: seq<(string, Value)>, k: string)
    ensures Covers(a + b, k) <==> Covers(a, k) || Covers(b, k)
  {
    if Covers(a, k) {
      var i :| 0 <= i < |a| && a[i].0 == k;
      assert (a + b)[i].0 == k;
    }
    if Covers(b, k) {
      var i :| 0 <= i < |b| && b[i].0 == k;
      assert (a + b)[|a| + i].0 == k;
    }
  }

  /** The section names are the keys without a colon. */
  lemma {:induction false} SectionNamesAre(slots: seq<Slot>)
    ensures forall i :: 0 <= i < |slots| && slots[i].Used? && !HasColon(slots[i].key) ==>
              slots[i].key in SectionNames(slots)
    ensures forall sec :: sec in SectionNames(slots) ==>
              !HasColon(sec) && exists i :: 0 <= i < |slots| && Has(slots[i], sec)
  {
    if slots != [] {
      var last := |slots| - 1;
      SectionNamesAre(slots[..last]);
      forall sec | sec in SectionNames(slots)
        ensures !HasColon(sec) && exists i :: 0 <= i < |slots| && Has(slots[i], sec)
      {
        if sec in SectionNames(slots[..last]) {
          var i :| 0 <= i < last && Has(slots[..last][i], sec);
          assert Has(slots[i], sec);
        } else {
          assert Has(slots[last], sec);
        }
      }
      forall i | 0 <= i < |slots| && slots[i].Used? && !HasColon(slots[i].key)
        ensures slots[i].key in SectionNames(slots)
      {
        if i < last {
          assert slots[..last][i] == slots[i];
        }
      }
    }
  }

  /** A key lies under the section before its first colon, and under no other. */
  lemma UnderIs(sec: string, s: Slot)
    requires !HasColon(sec) && Under(sec, s)
    ensures HasColon(s.key) && SectionOf(s.key) == sec
  {
    assert s.key[|sec|] == (sec + ":")[|sec|] == ':';
    forall j | 0 <= j < |sec| ensures s.key[j] !in ":" {
      assert s.key[j] == (sec + ":")[j] == sec[j];
    }
    UntilIs(s.key, ":", |sec|);
  }

  lemma SectionIsGood(slots: seq<Slot>, sec: string)
    requires WellFormed(slots) && sec in SectionNames(slots)
    ensures GoodName(sec) && GoodUnder(slots, sec) && !HasColon(sec)
  {
    SectionNamesAre(slots);
    hide GoodName, GoodPair, Under, SectionOf;
    var i :| 0 <= i < |slots| && Has(slots[i], sec);
    forall j | 0 <= j < |slots| && Under(sec, slots[j]) ensures GoodPair(sec, slots[j]) {
      UnderIs(sec, slots[j]);
      UnderUsed(sec, slots[j]);
    }
  }

  lemma UnderUsed(sec: string, s: Slot)
    requires Under(sec, s)
    ensures s.Used?
  {
  }

  /** A slot in use holds its key's value. */
  lemma SlotValue(slots: seq<Slot>, i: nat)
    requires Distinct(slots) && i < |slots| && slots[i].Used?
    ensures slots[i].key in MapOf(slots) && MapOf(slots)[slots[i].key] == slots[i].val
  {
    FindIs(slots, slots[i].key, i);
    KeysHave(slots, slots[i].key);
  }

  lemma {:induction false} PairSetsAre(all: seq<Slot>, slots: seq<Slot>, sec: string)
    requires Distinct(all) && slots <= all && !HasColon(sec)
    ensures SetsOf(NormalMap(MapOf(all)), PairSets(slots, sec))
  {
    hide MapOf, Distinct, Under;
    if slots != [] {
      var last := |slots| - 1;
      PairSetsAre(all, slots[..last], sec);
      if Under(sec, slots[last]) {
        UnderUsed(sec, slots[last]);
        UnderIs(sec, slots[last]);
        assert slots[last] == all[last];
        SlotValue(all, last);
      }
    }
  }

  lemma {:induction false} PairCovered(slots: seq<Slot>, sec: string, j: nat)
    requires j < |slots| && Under(sec, slots[j])
    ensures Covers(PairSets(slots, sec), slots[j].key)
    decreases |slots|
  {
    var last := |slots| - 1;
    var init, more := PairSets(slots[..last], sec), PairSets(slots, sec);
    if j < last {
      PairCovered(slots[..last], sec, j);
      CoversConcat(init, more[|init|..], slots[j].key);
      assert more == init + more[|init|..];
    } else {
      assert more[|init|].0 == slots[j].key;
    }
  }

  lemma {:induction false} SectionSetsAre(slots: seq<Slot>, secs: seq<string>)
    requires Distinct(slots)
    requires forall i :: 0 <= i < |secs| ==> secs[i] in SectionNames(slots)
    ensures SetsOf(NormalMap(MapOf(slots)), SectionSets(slots, secs))
  {
    hide MapOf, Distinct, SectionNames, PairSets;
    if secs != [] {
      var last := |secs| - 1;
      SectionSetsAre(slots, secs[..last]);
      SectionNamesAre(slots);
      PairSetsAre(slots, slots, secs[last]);
      var i0 :| 0 <= i0 < |slots| && Has(slots[i0], secs[last]);
      SlotValue(slots, i0);
    }
  }

  /** The settings of one section are among all settings. */
  lemma {:induction false} SectionCovered(slots: seq<Slot>, secs: seq<string>, i: nat, k: string)
    requires i < |secs| && (k == secs[i] || Covers(PairSets(slots, secs[i]), k))
    ensures Covers(SectionSets(slots, secs), k)
    decreases |secs|
  {
    hide PairSets;
    var last := |secs| - 1;
    var own: seq<(string, Value)> := [(secs[last], None)];
    var before, pairs := SectionSets(slots, secs[..last]), PairSets(slots, secs[last]);
    assert SectionSets(slots, secs) == before + (own + pairs);
    CoversConcat(before, own + pairs, k);
    CoversConcat(own, pairs, k);
    if i < last {
      SectionCovered(slots, secs[..last], i, k);
    } else if k == secs[i] {
      assert own[0].0 == k;
    }
  }

  lemma KeyCovered(slots: seq<Slot>, k: string)
    requires WellFormed(slots) && k in MapOf(slots)
    ensures Covers(SectionSets(slots, SectionNames(slots)), k)
  {
    var secs := SectionNames(slots);
    SectionNamesAre(slots);
    KeysHave(slots, k);
    var j := Find(slots, k);
    hide GoodName, GoodPair, Covers, SectionSets, SectionNames, SectionOf, Under, PairSets, MapOf;
    if HasColon(k) {
      var i :| 0 <= i < |secs| && secs[i] == SectionOf(k);
      PairCovered(slots, secs[i], j);
      SectionCovered(slots, secs, i, k);
    } else {
      var i :| 0 <= i < |secs| && secs[i] == k;
      SectionCovered(slots, secs, i, k);
    }
  }

  /** The loader after the lines of the dump. */
  lemma DumpFed(slots: seq<Slot>)
    requires WellFormed(slots)
    ensures Loadable(DumpLines(slots))
    ensures var m := FeedAll(FRESH_LOADER, DumpLines(slots));
            m.errs == 0 && m.slots == PutAll(FRESH_LOADER.slots, SectionSets(slots, SectionNames(slots)))
  {
    var secs := SectionNames(slots);
    forall i | 0 <= i < |secs| ensures GoodName(secs[i]) && GoodUnder(slots, secs[i]) {
      SectionIsGood(slots, secs[i]);
    }
    hide WellFormed, GoodName, GoodUnder, SectionNames, SectionLines, SectionSets, Loadable, Put, Feed;
    var lines := SectionLines(slots, secs);
    SectionsLoadable(slots, secs);
    NoLines();
    LoadableConcat(lines, [""]);
    SectionsFed(FRESH_LOADER, slots, secs);
    FeedAllConcat(FRESH_LOADER, lines, [""]);
    FeedOne(FeedAll(FRESH_LOADER, lines), "");
    BlankLine(FeedAll(FRESH_LOADER, lines));
  }

  lemma NamesListed(slots: seq<Slot>)
    ensures forall i :: 0 <= i < |SectionNames(slots)| ==> SectionNames(slots)[i] in SectionNames(slots)
  {
  }

  /** The settings of the dump build the dictionary's own map. */
  lemma DumpSetsMap(slots: seq<Slot>)
    requires WellFormed(slots)
    ensures SetAll(map[], SectionSets(slots, SectionNames(slots))) == NormalMap(MapOf(slots))
  {
    var secs, m := SectionNames(slots), NormalMap(MapOf(slots));
    var sets := SectionSets(slots, secs);
    NamesListed(slots);
    SectionSetsAre(slots, secs);
    forall k | k in m ensures Covers(sets, k) {
      KeyCovered(slots, k);
    }
    SetAllIs(m, sets);
    hide WellFormed, SectionSets, SetAll, Covers, SetsOf, NormalMap, SectionNames;
    assert SetAll(map[], sets).Keys == m.Keys;
  }

  lemma FreshMap()
    ensures Distinct(FRESH_LOADER.slots) && MapOf(FRESH_LOADER.slots) == map[]
  {
    assert Keys(FRESH_LOADER.slots) == {};
  }

  /** Round trip: loading the dump of a well-formed dictionary with sections succeeds and gives
      the same map, where keys without a value read back as empty. */
  lemma LoadDump(slots: seq<Slot>)
    requires WellFormed(slots)
    ensures var r := Load(Dump(slots));
            r.Some? && Distinct(r.value) && MapOf(r.value) == NormalMap(MapOf(slots))
  {
    hide SectionSets, Loadable, FeedAll, DumpLines, LoadFrom, PutAll, SetAll, NormalMap, MapOf, Distinct, Joined;
    var sets := SectionSets(slots, SectionNames(slots));
    DumpFed(slots);
    LoadJoined(FRESH_LOADER, DumpLines(slots));
    FreshMap();
    PutAllMap(FRESH_LOADER.slots, sets);
    DumpSetsMap(slots);
  }
}
