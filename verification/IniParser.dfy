/** The loops of the configuration parser and printer, proved to do what `IniText` says. */
module IniParser {
  import opened Ts
  import opened IniDict
  import opened IniText
  import opened IniRoundTrip

  // ---- Strings

  /** `strlwc`, whose buffer holds a line's length of characters. */
  method StrLwc(s: string) returns (r: string)
    ensures r == Lower(if |s| <= LINE_SIZE then s else s[..LINE_SIZE])
  {
    r := "";
    var i := 0;
    while i < |s| && i < LINE_SIZE
      invariant |r| == i <= |s| && i <= LINE_SIZE && forall j :: 0 <= j < i ==> r[j] == ToLower(s[j])
    {
      r := r + [ToLower(s[i])];
      i := i + 1;
    }
  }

  /** The loops that drop blanks at either end of a string. */
  method SkipBlanks(s: string) returns (r: string)
    ensures r == StripLeft(s)
  {
    r := s;
    while r != "" && IsSpace(r[0])
      invariant StripLeft(r) == StripLeft(s)
      decreases |r|
    {
      r := r[1..];
    }
  }

  method DropBlanks(s: string) returns (r: string)
    ensures r == StripRight(s)
  {
    r := s;
    while r != "" && IsSpace(r[|r| - 1])
      invariant StripRight(r) == StripRight(s)
      decreases |r|
    {
      r := r[..|r| - 1];
    }
  }

  /** `strstrip` */
  method StrStrip(s: string) returns (r: string)
    ensures r == Strip(s)
  {
    var t := SkipBlanks(s);
    r := DropBlanks(t);
  }

  // ---- Sections

  /** `iniparser_getnsec` */
  method GetNSec(d: Dictionary) returns (nsec: nat)
    requires d.Valid()
    ensures nsec == |SectionNames(d.Slots())|
  {
    nsec := 0;
    ghost var slots := d.Slots();
    for i := 0 to d.size
      invariant nsec == |SectionNames(slots[..i])|
    {
      assert slots[..i + 1][..i] == slots[..i];
      if d.key[i] != None && ':' !in d.key[i].value {
        nsec := nsec + 1;
      }
    }
    assert slots[..d.size] == slots;
  }

  /** `iniparser_getsecname` */
  method GetSecName(d: Dictionary, n: nat) returns (name: Option<string>)
    requires d.Valid()
    ensures name == if n < |SectionNames(d.Slots())| then Some(SectionNames(d.Slots())[n]) else None
  {
    hide Distinct, Count, SectionNames;
    var found := 0;
    NoSections();
    ghost var slots := d.Slots();
    for i := 0 to d.size
      invariant found == |SectionNames(slots[..i])| <= n
    {
      SectionNamesStep(slots, i);
      if d.key[i] != None && ':' !in d.key[i].value {
        found := found + 1;
        if found > n {
          SectionNamesPrefix(slots, i + 1);
          return Some(d.key[i].value);
        }
      }
    }
    assert slots[..d.size] == slots;
    name := None;
  }

  lemma NoSections()
    ensures SectionNames([]) == []
  {
  }

  lemma SectionNamesStep(slots: seq<Slot>, i: nat)
    requires i < |slots|
    ensures SectionNames(slots[..i + 1]) == SectionNames(slots[..i]) +
            if slots[i].Used? && !HasColon(slots[i].key) then [slots[i].key] else []
  {
    assert slots[..i + 1][..i] == slots[..i];
  }

  lemma {:induction false} SectionNamesPrefix(slots: seq<Slot>, n: nat)
    requires n <= |slots|
    ensures SectionNames(slots[..n]) <= SectionNames(slots)
    decreases |slots|
  {
    if n < |slots| {
      SectionNamesPrefix(slots[..|slots| - 1], n);
      assert slots[..|slots| - 1][..n] == slots[..n];
    } else {
      assert slots[..n] == slots;
    }
  }

  // ---- Dumping

  lemma {:induction false} JoinedConcat(a: seq<string>, b: seq<string>)
    ensures Joined(a + b) == Joined(a) + Joined(b)
  {
    if b == [] {
      assert a + b == a && Joined(a) + "" == Joined(a);
    } else {
      var init, last := b[..|b| - 1], b[|b| - 1] + "\n";
      JoinedConcat(a, init);
      assert (a + b)[..|a + b| - 1] == a + init;
      assert Joined(a) + Joined(init) + last == Joined(a) + (Joined(init) + last);
    }
  }

  lemma JoinedOne(line: string)
    ensures Joined([line]) == line + "\n"
  {
    assert [line][..0] == [] && Joined([]) == "";
  }

  /** The inner loop of the dump: the keys under one section. */
  method DumpSection(d: Dictionary, sec: string) returns (out: string)
    requires d.Valid()
    ensures out == Joined(PairLines(d.Slots(), sec))
  {
    out := "";
    ghost var slots := d.Slots();
    var prefix := sec + ":";
    for j := 0 to d.size
      invariant out == Joined(PairLines(slots[..j], sec))
    {
      assert slots[..j + 1][..j] == slots[..j];
      if d.key[j] != None && prefix <= d.key[j].value {
        var line := PairLine(sec, Used(d.key[j].value, d.val[j]));
        JoinedConcat(PairLines(slots[..j], sec), [line]);
        JoinedOne(line);
        out := out + line + "\n";
      } else {
        assert PairLines(slots[..j], sec) + [] == PairLines(slots[..j], sec);
      }
    }
    assert slots[..d.size] == slots;
  }

  /** The dump of a dictionary without sections. */
  method DumpBare(d: Dictionary) returns (out: string)
    requires d.Valid()
    ensures out == Joined(BareLines(d.Slots()))
  {
    out := "";
    ghost var slots := d.Slots();
    for i := 0 to d.size
      invariant out == Joined(BareLines(slots[..i]))
    {
      assert slots[..i + 1][..i] == slots[..i];
      if d.key[i] != None {
        var line := d.key[i].value + " = " + if d.val[i] == None then "(null)" else d.val[i].value;
        JoinedConcat(BareLines(slots[..i]), [line]);
        JoinedOne(line);
        out := out + line + "\n";
      } else {
        assert BareLines(slots[..i]) + [] == BareLines(slots[..i]);
      }
    }
    assert slots[..d.size] == slots;
  }

  /** `iniparser_dump_ini`; `out` is what goes to the file. */
  method DumpIni(d: Dictionary) returns (out: string)
    requires d.Valid()
    ensures out == Dump(d.Slots())
  {
    hide Joined, SectionLines, SectionNames, PairLines, BareLines;
    ghost var slots, secs := d.Slots(), SectionNames(d.Slots());
    var nsec := GetNSec(d);
    if nsec < 1 {
      out := DumpBare(d);
      return;
    }
    out := "";
    NothingJoined(slots);
    for i := 0 to nsec
      invariant out == Joined(SectionLines(slots, secs[..i]))
    {
      var name := GetSecName(d, i);
      var sec := name.value;
      var pairs := DumpSection(d, sec);
      SectionJoined(slots, secs[..i], sec);
      assert secs[..i + 1] == secs[..i] + [sec];
      out := out + (("\n" + ("[" + sec + "]" + "\n")) + pairs);
    }
    assert secs[..nsec] == secs;
    DumpEnds(slots);
    out := out + "\n";
  }

  lemma NothingJoined(slots: seq<Slot>)
    ensures Joined(SectionLines(slots, [])) == ""
  {
  }

  lemma DumpEnds(slots: seq<Slot>)
    requires SectionNames(slots) != []
    ensures Dump(slots) == Joined(SectionLines(slots, SectionNames(slots))) + "\n"
  {
    hide Joined;
    JoinedConcat(SectionLines(slots, SectionNames(slots)), [""]);
    JoinedOne("");
    assert "" + "\n" == "\n";
  }

  /** One more section in the dump. */
  lemma SectionJoined(slots: seq<Slot>, secs: seq<string>, sec: string)
    ensures Joined(SectionLines(slots, secs + [sec])) ==
            Joined(SectionLines(slots, secs)) + (("\n" + ("[" + sec + "]" + "\n")) + Joined(PairLines(slots, sec)))
  {
    hide Joined, PairLines;
    var before, head := SectionLines(slots, secs), ["", "[" + sec + "]"];
    assert SectionLines(slots, secs + [sec]) == before + head + PairLines(slots, sec) by {
      assert (secs + [sec])[..|secs|] == secs;
    }
    hide SectionLines;
    JoinedConcat(before + head, PairLines(slots, sec));
    JoinedConcat(before, head);
    HeadJoined(sec);
  }

  lemma HeadJoined(sec: string)
    ensures Joined(["", "[" + sec + "]"]) == "\n" + ("[" + sec + "]" + "\n")
  {
    hide Joined;
    assert ["", "[" + sec + "]"] == [""] + ["[" + sec + "]"];
    JoinedConcat([""], ["[" + sec + "]"]);
    JoinedOne("");
    JoinedOne("[" + sec + "]");
    assert "" + "\n" == "\n";
  }

  // ---- Loading

  /** What the first two `sscanf` formats read after an equals sign and blanks: a quoted value,
      which may lack its closing quote but not be empty. */
  method ReadQuoted(rest: string, quote: char) returns (value: Option<string>)
    ensures value == if rest != "" && rest[0] == quote && Until(rest[1..], [quote]) > 0
                     then Some(rest[1..][..Until(rest[1..], [quote])]) else None
  {
    value := None;
    if rest != "" && rest[0] == quote {
      var n := Until(rest[1..], [quote]);
      if n > 0 {
        value := Some(rest[1..][..n]);
      }
    }
  }

  /** The value of a pair: quoted, or up to a comment, or nothing. */
  method ReadValue(rest: string) returns (value: string)
    ensures value == ValueOf(rest)
  {
    hide Strip;
    var quoted := ReadQuoted(rest, '"');
    if quoted == None {
      quoted := ReadQuoted(rest, '\'');
    }
    if quoted != None {
      value := StrStrip(quoted.value);
    } else {
      value := StrStrip(rest[..Until(rest, ";#")]);
    }
    if value == "\"\"" || value == "''" {
      value := "";
    }
  }

  lemma StripShorter(s: string)
    ensures |Strip(s)| <= |s| && |StripRight(s)| <= |s|
  {
    StripLeftShorter(s);
    StripRightShorter(StripLeft(s));
    StripRightShorter(s);
  }

  /** `strstrip`, then `strlwc`: no name of a line's length is cut. */
  method Normalize(s: string) returns (r: string)
    requires |s| <= LINE_SIZE
    ensures r == Lower(Strip(s)) && |r| <= |s|
  {
    hide Strip;
    StripShorter(s);
    var t := StrStrip(s);
    r := StrLwc(t);
  }

  /** `iniparser_line` */
  method IniParserLine(input: string) returns (said: Line)
    requires |input| <= LINE_SIZE
    ensures said == ParseLine(input)
    ensures said.Section? && said.name.Some? ==> |said.name.value| <= LINE_SIZE
  {
    hide Strip, Lower, ValueOf, StripLeft;
    StripShorter(input);
    var line := StrStrip(input);
    if |line| < 1 {
      return Empty;
    }
    if line[0] == '#' {
      return Comment;
    }
    if line[0] == '[' && line[|line| - 1] == ']' {
      var n := Until(line[1..], "]");
      if n == 0 {
        return Section(None);
      }
      var name := Normalize(line[1..][..n]);
      return Section(Some(name));
    }
    var n := Until(line, "=");
    if n == 0 || n == |line| {
      return Error;
    }
    var key := Normalize(line[..n]);
    var rest := SkipBlanks(line[n + 1..]);
    var value := ReadValue(rest);
    said := Pair(key, value);
  }

  /** What `iniparser_load` does with a whole line. */
  method TakeLine(dict: Dictionary, section: string, errs: nat, line: string) returns (section2: string, errs2: nat)
    requires dict.Valid() && |section| <= LINE_SIZE && |line| <= LINE_SIZE
    modifies dict, dict.key, dict.val, dict.hash
    ensures dict.Valid() && |section2| <= LINE_SIZE
    ensures (dict.key == old(dict.key) && dict.val == old(dict.val) && dict.hash == old(dict.hash))
            || (fresh(dict.key) && fresh(dict.val) && fresh(dict.hash))
    ensures Loader(dict.Slots(), section2, "", errs2) ==
            Take(Loader(old(dict.Slots()), section, "", errs), ParseLine(line))
  {
    hide ParseLine, Put, Strip, Lower;
    section2, errs2 := section, errs;
    var said := IniParserLine(line);
    match said {
      case Empty =>
      case Comment =>
      case Section(name) =>
        if name.Some? {
          section2 := name.value;
        } else {
          section2 := Normalize(section);
        }
        dict.Set(section2, None);
        errs2 := 0;
      case Pair(key, value) =>
        dict.Set(section + ":" + key, Some(value));
        errs2 := 0;
      case Error =>
        errs2 := errs + 1;
    }
  }

  /** A line that a backslash continues only waits. */
  lemma FeedCases(l: Loader, text: string)
    requires l.slots != []
    ensures var line := StripRight(l.pending + text);
            Feed(l, text) == if line != "" && line[|line| - 1] == '\\' then l.(pending := line[..|line| - 1])
                             else Take(l.(pending := ""), ParseLine(line))
  {
    hide ParseLine, Put, Strip, Lower, StripRight;
  }

  lemma LoadFromIs(l: Loader, text: string)
    requires l.slots != []
    ensures LoadFrom(l, text) ==
            if text == "" then (if l.errs != 0 then None else Some(l.slots))
            else
              var n := Until(text, "\n");
              if n == |text| || |l.pending| + n + 1 >= LINE_SIZE then None
              else LoadFrom(Feed(l, text[..n + 1]), text[n + 1..])
  {
    hide Feed, Until;
  }

  /** `iniparser_load`; null stands for its failures, and `text` for the file. */
  method LoadIni(text: string, hashOf: string -> nat) returns (d: Dictionary?)
    ensures match Load(text)
            case None => d == null
            case Some(slots) => d != null && d.Valid() && d.Slots() == slots && d.hashOf == hashOf
  {
    hide ParseLine, Put, Strip, StripRight, Take, Feed, LoadFrom, Until, Distinct, Count;
    var dict := new Dictionary(hashOf, 0);
    var section, pending, errs := "", "", 0;
    var rest := text;
    while rest != ""
      invariant dict.Valid() && dict.hashOf == hashOf
      invariant fresh(dict) && fresh(dict.key) && fresh(dict.val) && fresh(dict.hash)
      invariant |section| <= LINE_SIZE
      invariant LoadFrom(Loader(dict.Slots(), section, pending, errs), rest) == Load(text)
      decreases |rest|
    {
      LoadFromIs(Loader(dict.Slots(), section, pending, errs), rest);
      var n := Until(rest, "\n");
      if n == |rest| || |pending| + n + 1 >= LINE_SIZE {
        return null;
      }
      FeedCases(Loader(dict.Slots(), section, pending, errs), rest[..n + 1]);
      StripShorter(pending + rest[..n + 1]);
      var line := DropBlanks(pending + rest[..n + 1]);
      if line != "" && line[|line| - 1] == '\\' {
        pending := line[..|line| - 1];
      } else {
        section, errs := TakeLine(dict, section, errs, line);
        pending := "";
      }
      rest := rest[n + 1..];
    }
    LoadFromIs(Loader(dict.Slots(), section, pending, errs), "");
    if errs != 0 {
      d := null;
    } else {
      d := dict;
    }
  }

  /** Dumping a well-formed dictionary and loading the text gives the same map. */
  method DumpAndLoad(d: Dictionary) returns (e: Dictionary?)
    requires d.Valid() && WellFormed(d.Slots())
    ensures e != null && e.Valid() && MapOf(e.Slots()) == NormalMap(MapOf(d.Slots()))
  {
    var text := DumpIni(d);
    e := LoadIni(text, d.hashOf);
    LoadDump(d.Slots());
  }
}
