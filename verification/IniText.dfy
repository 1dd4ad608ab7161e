/** The text format of configuration files: what a line means, and how a dictionary is
    written out. */
module IniText {
  import opened Ts
  import opened IniDict

  /** The size of the line buffers. */
  const LINE_SIZE: nat := 1024

  // ---- Characters and strings

  predicate IsSpace(c: char) {
    c == ' ' || '\t' <= c <= '\r'
  }

  function ToLower(c: char): char {
    if 'A' <= c <= 'Z' then (c as int - 'A' as int + 'a' as int) as char else c
  }

  /** `strlwc` */
  function Lower(s: string): (r: string)
    ensures |r| == |s| && forall i :: 0 <= i < |s| ==> r[i] == ToLower(s[i])
  {
    seq(|s|, i requires 0 <= i < |s| => ToLower(s[i]))
  }

  function StripLeft(s: string): string {
    if s == "" || !IsSpace(s[0]) then s else StripLeft(s[1..])
  }

  function StripRight(s: string): string {
    if s == "" || !IsSpace(s[|s| - 1]) then s else StripRight(s[..|s| - 1])
  }

  /** `strstrip` */
  function Strip(s: string): string {
    StripRight(StripLeft(s))
  }

  /** The index of the first character in `stops`, or the length. */
  function Until(s: string, stops: string): (i: nat)
    ensures i <= |s| && (i < |s| ==> s[i] in stops)
    ensures forall j :: 0 <= j < i ==> s[j] !in stops
  {
    if s == "" || s[0] in stops then 0 else 1 + Until(s[1..], stops)
  }

  // ---- One line

  /** What a line says. `Section` with no name repeats the section before it. */
  datatype Line = Empty | Comment | Section(name: Option<string>) | Pair(key: string, value: string) | Error

  /** What the formats read after the equals sign and any blanks: the inside of quotes, or up to
      a comment, or nothing. */
  function RawValue(rest: string): string {
    if rest != "" && rest[0] == '"' && Until(rest[1..], "\"") > 0 then rest[1..][..Until(rest[1..], "\"")]
    else if rest != "" && rest[0] == '\'' && Until(rest[1..], "'") > 0 then rest[1..][..Until(rest[1..], "'")]
    else rest[..Until(rest, ";#")]
  }

  /** The value without blanks around it; two quotes alone, even inside quotes, are empty. */
  function ValueOf(rest: string): string {
    var value := Strip(RawValue(rest));
    if value == "\"\"" || value == "''" then "" else value
  }

  /** `iniparser_line` */
  function ParseLine(input: string): Line {
    var line := Strip(input);
    if line == "" then Empty
    else if line[0] == '#' then Comment
    else if line[0] == '[' && line[|line| - 1] == ']' then
      var n := Until(line[1..], "]");
      Section(if n == 0 then None else Some(Lower(Strip(line[1..][..n]))))
    else
      var n := Until(line, "=");
      if n == 0 || n == |line| then Error
      else Pair(Lower(Strip(line[..n])), ValueOf(StripLeft(line[n + 1..])))
  }

  // ---- Loading

  /** The loader's variables.  `pending` is the start of a line that a backslash continues. */
  datatype Loader = Loader(slots: seq<Slot>, section: string, pending: string, errs: nat)

  const FRESH_LOADER := Loader(Frees(MIN_SIZE), "", "", 0)

  /** A whole line takes effect.  A line that sets something also clears the error count. */
  function Take(l: Loader, line: Line): (r: Loader)
    requires l.slots != []
    ensures r.slots != [] && r.pending == ""
  {
    match line
    case Empty => l.(pending := "")
    case Comment => l.(pending := "")
    case Section(name) =>
      var section := if name.Some? then name.value else Lower(Strip(l.section));
      l.(slots := Put(l.slots, section, None), section := section, pending := "", errs := 0)
    case Pair(key, value) =>
      l.(slots := Put(l.slots, l.section + ":" + key, Some(value)), pending := "", errs := 0)
    case Error => l.(pending := "", errs := l.errs + 1)
  }

  /** One line has been read in after what was pending, up to its newline. */
  function Feed(l: Loader, text: string): (r: Loader)
    requires l.slots != []
    ensures r.slots != []
  {
    var line := StripRight(l.pending + text);
    if line != "" && line[|line| - 1] == '\\' then l.(pending := line[..|line| - 1])
    else Take(l, ParseLine(line))
  }

  /** `iniparser_load`: none for a line that is too long or lacks its newline, or when the
      last line that counts was wrong. */
  function LoadFrom(l: Loader, text: string): Option<seq<Slot>>
    requires l.slots != []
    decreases |text|
  {
    if text == "" then (if l.errs != 0 then None else Some(l.slots))
    else
      var n := Until(text, "\n");
      if n == |text| || |l.pending| + n + 1 >= LINE_SIZE then None
      else LoadFrom(Feed(l, text[..n + 1]), text[n + 1..])
  }

  function Load(text: string): Option<seq<Slot>> {
    LoadFrom(FRESH_LOADER, text)
  }

  // ---- Dumping

  predicate HasColon(key: string) {
    ':' in key
  }

  /** The keys without a colon, in slot order. */
  function SectionNames(slots: seq<Slot>): seq<string> {
    if slots == [] then []
    else
      var last := slots[|slots| - 1];
      SectionNames(slots[..|slots| - 1]) + if last.Used? && !HasColon(last.key) then [last.key] else []
  }

  function Blanks(n: nat): (s: string)
    ensures |s| == n && forall i :: 0 <= i < n ==> s[i] == ' '
  {
    seq(n, i => ' ')
  }

  function Padded(key: string): string {
    key + Blanks(if |key| < 30 then 30 - |key| else 0)
  }

  function Text(val: Value): string {
    if val == None then "" else val.value
  }

  predicate Under(sec: string, s: Slot) {
    s.Used? && sec + ":" <= s.key
  }

  function PairLine(sec: string, s: Slot): string
    requires Under(sec, s)
  {
    Padded(s.key[|sec| + 1..]) + " = " + Text(s.val)
  }

  /** The lines of one section's keys. */
  function PairLines(slots: seq<Slot>, sec: string): seq<string> {
    if slots == [] then []
    else
      var last := slots[|slots| - 1];
      PairLines(slots[..|slots| - 1], sec) + if Under(sec, last) then [PairLine(sec, last)] else []
  }

  function SectionLines(slots: seq<Slot>, secs: seq<string>): seq<string> {
    if secs == [] then []
    else
      var last := secs[|secs| - 1];
      SectionLines(slots, secs[..|secs| - 1]) + ["", "[" + last + "]"] + PairLines(slots, last)
  }

  /** `iniparser_dump_ini` of a dictionary with sections, line by line. */
  function DumpLines(slots: seq<Slot>): seq<string> {
    SectionLines(slots, SectionNames(slots)) + [""]
  }

  function Joined(lines: seq<string>): string {
    if lines == [] then "" else Joined(lines[..|lines| - 1]) + lines[|lines| - 1] + "\n"
  }

  /** With no section at all, every key is written as it is. */
  function BareLines(slots: seq<Slot>): seq<string> {
    if slots == [] then []
    else
      var last := slots[|slots| - 1];
      BareLines(slots[..|slots| - 1]) +
      if last.Used? then [last.key + " = " + if last.val == None then "(null)" else last.val.value] else []
  }

  function Dump(slots: seq<Slot>): string {
    Joined(if SectionNames(slots) == [] then BareLines(slots) else DumpLines(slots))
  }
}
