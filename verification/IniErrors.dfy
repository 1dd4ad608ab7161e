/** Which syntax errors make the loader fail: an error counts only until the next line that
    sets something. */
module IniErrors {
  import opened Ts
  import opened IniDict
  import opened IniText
  import opened IniRoundTrip

  function Said(line: string): Line {
    ParseLine(StripRight(line + "\n"))
  }

  predicate Sets(line: string) {
    Said(line).Section? || Said(line).Pair?
  }

  /** Some line is wrong and no line after it sets anything. */
  ghost predicate EndsWrong(lines: seq<string>) {
    exists i :: 0 <= i < |lines| && Said(lines[i]).Error? && forall j :: i < j < |lines| ==> !Sets(lines[j])
  }

  lemma FeedErrs(l: Loader, line: string)
    requires l.slots != [] && l.pending == "" && Ends(line)
    ensures var r := Feed(l, line + "\n");
            && r.pending == ""
            && r.errs == if Sets(line) then 0 else if Said(line).Error? then l.errs + 1 else l.errs
  {
    hide StripRight, ParseLine, Put, Strip, Lower;
    assert l.pending + (line + "\n") == line + "\n";
  }

  lemma EndsWrongStep(lines: seq<string>)
    requires lines != []
    ensures var last := |lines| - 1;
            EndsWrong(lines) <==> Said(lines[last]).Error? || (!Sets(lines[last]) && EndsWrong(lines[..last]))
  {
    hide Said;
    var last := |lines| - 1;
    if Said(lines[last]).Error? {
      assert EndsWrong(lines);
    }
    if !Sets(lines[last]) && EndsWrong(lines[..last]) {
      var i :| 0 <= i < last && Said(lines[..last][i]).Error? && forall j :: i < j < last ==> !Sets(lines[..last][j]);
      assert Said(lines[i]).Error?;
      forall j | i < j < |lines| ensures !Sets(lines[j]) {
        assert j < last ==> lines[..last][j] == lines[j];
      }
    }
    if EndsWrong(lines) && !Said(lines[last]).Error? {
      var i :| 0 <= i < |lines| && Said(lines[i]).Error? && forall j :: i < j < |lines| ==> !Sets(lines[j]);
      assert i < last && Said(lines[..last][i]).Error?;
      assert !Sets(lines[last]);
    }
  }

  lemma {:induction false} ErrsAre(l: Loader, lines: seq<string>)
    requires Steady(l) && Loadable(lines)
    ensures var r := FeedAll(l, lines); r.pending == "" && (r.errs != 0 <==> EndsWrong(lines))
  {
    hide Feed, EndsWrong, Said, Ends, Fits;
    if lines == [] {
      NothingWrong();
    } else {
      var last := |lines| - 1;
      ErrsAre(l, lines[..last]);
      FeedErrs(FeedAll(l, lines[..last]), lines[last]);
      EndsWrongStep(lines);
    }
  }

  lemma NothingWrong()
    ensures !EndsWrong([])
  {
  }

  /** Lines that fit and are not continued load exactly when no wrong line is left uncleared. */
  lemma LoadFails(lines: seq<string>)
    requires Loadable(lines)
    ensures Load(Joined(lines)) == None <==> EndsWrong(lines)
  {
    hide EndsWrong, Loadable, FeedAll, LoadFrom, Joined;
    LoadJoined(FRESH_LOADER, lines);
    ErrsAre(FRESH_LOADER, lines);
  }

  lemma EqualsIsWrong()
    ensures Said("=") == Error && Fits("=") && Ends("=")
  {
    TightStays("=");
    StripRightBlanks("=", "\n");
  }

  lemma HeadSets()
    ensures Sets("[a]") && Fits("[a]") && Ends("[a]")
  {
    assert Lower("a") == "a";
    TightStays("a");
    assert GoodName("a");
    assert "[" + "a" + "]" == "[a]";
    SectionParses("a");
    StripRightBlanks("[a]", "\n");
    hide ParseLine, StripRight, GoodName, Lower, Strip;
  }

  /** A file whose first line is wrong and that loads all the same. */
  lemma ErrorForgotten()
    ensures Loadable(["=", "[a]"]) && Said("=") == Error && Load(Joined(["=", "[a]"])) != None
  {
    hide Load, Joined, EndsWrong, Said, Fits, Ends, Sets;
    EqualsIsWrong();
    HeadSets();
    OnlyLast(["=", "[a]"]);
    LoadFails(["=", "[a]"]);
  }

  lemma OnlyLast(lines: seq<string>)
    requires lines != [] && Sets(lines[|lines| - 1])
    ensures !EndsWrong(lines)
  {
    EndsWrongStep(lines);
    hide Said, EndsWrong;
  }
}
