/**
 * The worked examples of the report normalization: the two OS version
 * shapes named in the comment of `parse_os_version`, and the sample inputs
 * of the exception, user, architecture and breadcrumb rules.
 */
module Cases {
  import opened Wrappers
  import opened Strings
  import opened Json
  import opened Reports
  import opened Views

  /** A version or build number: digits and dots only. */
  predicate IsNumber(s: string)
  {
    forall c :: c in s ==> '0' <= c <= '9' || c == '.'
  }

  /** `version <d>  (Build <e>)`, the part both known shapes share, as sent. */
  function RawTail(d: string, e: string): string
  {
    "version " + (d + ("  (" + ("Build " + (e + ")"))))
  }

  /** The same part after lower-casing. */
  function Tail(d: string, e: string): string
  {
    "version " + (d + ("  (" + ("build " + (e + ")"))))
  }

  // ----------------------------------------------------------- lower-casing

  lemma LowerBuild(e: string)
    requires IsNumber(e)
    ensures Lower("Build " + (e + ")")) == "build " + (e + ")")
  {
    var x := e + ")";
    assert forall c :: c in x ==> c in e || c == ')';
    LowerNoUpper(x);
    assert "Build " == ['B'] + "uild ";
    LowerCapitalized('B', "uild ");
    LowerAppend("Build ", x);
  }

  lemma LowerTail(d: string, e: string)
    requires IsNumber(d) && IsNumber(e)
    ensures Lower(RawTail(d, e)) == Tail(d, e)
  {
    var x := "Build " + (e + ")");
    LowerBuild(e);
    LowerNoUpper(d);
    LowerNoUpper("  (");
    LowerAppend(d, "  (");
    var y := d + ("  (" + x);
    assert y == (d + "  (") + x;
    LowerAppend(d + "  (", x);
    assert Lower(y) == d + ("  (" + ("build " + (e + ")")));
    LowerNoUpper("version ");
    LowerAppend("version ", y);
  }

  lemma LowerMicrosoft()
    ensures Lower("Microsoft ") == "microsoft "
  {
    assert "Microsoft " == ['M'] + "icrosoft ";
    LowerCapitalized('M', "icrosoft ");
  }

  lemma LowerWindows(windows: string, release: string)
    requires windows == "Windows " + release
    requires forall c :: c in release ==> !IsUpper(c)
    ensures Lower(windows) == "windows " + release
  {
    var w := "indows " + release;
    assert windows == ['W'] + w;
    assert forall c :: c in w ==> c in "indows " || c in release;
    LowerCapitalized('W', w);
    assert "windows " + release == ['w'] + w;
  }

  /** Lower-casing `Microsoft Windows <release> version <d>  (Build <e>)`. */
  lemma LowerShape(windows: string, release: string, d: string, e: string)
    requires windows == "Windows " + release
    requires forall c :: c in release ==> !IsUpper(c)
    requires IsNumber(d) && IsNumber(e)
    ensures Lower("Microsoft " + (windows + RawTail(d, e))) ==
      "microsoft " + (("windows " + release) + Tail(d, e))
  {
    LowerMicrosoft();
    LowerWindows(windows, release);
    LowerTail(d, e);
    LowerAppend(windows, RawTail(d, e));
    LowerAppend("Microsoft ", windows + RawTail(d, e));
  }

  // ------------------------------------------------------ the replacements

  lemma DeleteMicrosoft(rest: string)
    requires 'm' !in rest
    ensures Replace("microsoft " + rest, "microsoft", "") == " " + rest
  {
    assert "microsoft " == "" + "microsoft" + " ";
    ReplaceToken("", " ", rest, "microsoft", "");
    ReplaceAbsent(rest, "microsoft", "");
    assert "" + "" + " " == " ";
  }

  /** `windows 8.1` is not `windows 10`: they first differ at index 8. */
  lemma NotWindows10(r1: string, t: string)
    requires r1 == "indows 8.1 " + t
    ensures !StartsWith(['w'] + r1, "windows 10")
  {
    assert (['w'] + r1)[8] == '8';
  }

  /** The second `w` of `windows` is followed by `s`, not by `i`. */
  lemma NotWindows10Inner(r2: string, t: string)
    requires r2 == "s 8.1 " + t
    ensures !StartsWith(['w'] + r2, "windows 10")
  {
    assert (['w'] + r2)[1] == 's';
  }

  /** The rest of `windows 8.1 ` cut at the second `w` of `windows`. */
  lemma SecondLetterW(t: string)
    ensures "indows 8.1 " + t == "indo" + (['w'] + ("s 8.1 " + t))
  {
    assert "indows 8.1 " == "indo" + ['w'] + "s 8.1 ";
  }

  /**
   * Windows 8.1: `windows 10` does not occur. Neither `w` of `windows`
   * starts it, so the step copies the text unchanged.
   */
  lemma KeepWindows81(t: string)
    requires 'w' !in t
    ensures Replace(" " + ("windows 8.1 " + t), "windows 10", "") == " " + ("windows 8.1 " + t)
  {
    var pat := "windows 10";
    var r2 := "s 8.1 " + t;
    var r1 := "indows 8.1 " + t;
    ReplaceSkip(" ", "windows 8.1 " + t, pat, "");
    assert "windows 8.1 " + t == ['w'] + r1;
    NotWindows10(r1, t);
    ReplaceMiss('w', r1, pat, "");
    SecondLetterW(t);
    ReplaceSkip("indo", ['w'] + r2, pat, "");
    NotWindows10Inner(r2, t);
    ReplaceMiss('w', r2, pat, "");
    ReplaceAbsent(r2, pat, "");
    calc {
      Replace(" " + ("windows 8.1 " + t), pat, "");
      " " + Replace(['w'] + r1, pat, "");
      " " + (['w'] + Replace(r1, pat, ""));
      " " + (['w'] + ("indo" + Replace(['w'] + r2, pat, "")));
      " " + (['w'] + ("indo" + (['w'] + r2)));
      { assert ['w'] + ("indo" + (['w'] + r2)) == ['w'] + r1; }
      " " + ("windows 8.1 " + t);
    }
  }

  /**
   * The `windows 10` and `windows 8.1` steps: a word after the leading space
   * is deleted, and the rest, which never holds the word's first letter, is
   * kept.
   */
  lemma DeleteWindowsWord(word: string, t: string)
    requires word != [] && word[0] != ' ' && word[0] !in t
    ensures Replace(" " + (word + " " + t), word, "") == " " + (" " + t)
  {
    ReplaceSkip(" ", word + " " + t, word, "");
    assert word + " " + t == ("" + word + " ") + t;
    ReplaceToken("", " ", t, word, "");
    ReplaceAbsent(t, word, "");
    assert "" + "" + " " == " ";
  }

  lemma DeleteVersion(d: string, e: string)
    requires IsNumber(d) && IsNumber(e)
    ensures Replace(" " + (" " + Tail(d, e)), "version", "") ==
      " " + (" " + (" " + (d + ("  (" + ("build " + (e + ")"))))))
  {
    var x := d + ("  (" + ("build " + (e + ")")));
    assert 'v' !in x;
    ReplaceSkip(" ", " " + Tail(d, e), "version", "");
    ReplaceSkip(" ", Tail(d, e), "version", "");
    assert "version " == "" + "version" + " ";
    ReplaceToken("", " ", x, "version", "");
    ReplaceAbsent(x, "version", "");
    assert "" + "" + " " == " ";
  }

  lemma BuildToDot(d: string, e: string)
    requires IsNumber(d) && IsNumber(e)
    ensures Replace(" " + (" " + (" " + (d + ("  (" + ("build " + (e + ")")))))), "build", ".") ==
      " " + (" " + (" " + (d + ("  (" + (". " + (e + ")"))))))
  {
    var x := e + ")";
    assert 'b' !in x && 'b' !in d;
    ReplaceSkip(" ", " " + (" " + (d + ("  (" + ("build " + x)))), "build", ".");
    ReplaceSkip(" ", " " + (d + ("  (" + ("build " + x))), "build", ".");
    ReplaceSkip(" ", d + ("  (" + ("build " + x)), "build", ".");
    ReplaceSkip(d, "  (" + ("build " + x), "build", ".");
    ReplaceSkip("  (", "build " + x, "build", ".");
    assert "build " == "" + "build" + " ";
    ReplaceToken("", " ", x, "build", ".");
    ReplaceAbsent(x, "build", ".");
    assert "" + "." + " " == ". ";
  }

  lemma DeleteOpen(d: string, e: string)
    requires IsNumber(d) && IsNumber(e)
    ensures Replace(" " + (" " + (" " + (d + ("  (" + (". " + (e + ")")))))), "(", "") ==
      " " + (" " + (" " + (d + ("  " + (". " + (e + ")"))))))
  {
    var x := ". " + (e + ")");
    assert '(' !in x && '(' !in d;
    ReplaceSkip(" ", " " + (" " + (d + ("  (" + x))), "(", "");
    ReplaceSkip(" ", " " + (d + ("  (" + x)), "(", "");
    ReplaceSkip(" ", d + ("  (" + x), "(", "");
    ReplaceSkip(d, "  (" + x, "(", "");
    assert "  (" == "  " + "(" + "";
    ReplaceToken("  ", "", x, "(", "");
    ReplaceAbsent(x, "(", "");
    assert "  " + "" + "" == "  ";
  }

  lemma DeleteClose(d: string, e: string)
    requires IsNumber(d) && IsNumber(e)
    ensures Replace(" " + (" " + (" " + (d + ("  " + (". " + (e + ")")))))), ")", "") ==
      " " + (" " + (" " + (d + ("  " + (". " + e)))))
  {
    assert ')' !in d && ')' !in e;
    ReplaceSkip(" ", " " + (" " + (d + ("  " + (". " + (e + ")"))))), ")", "");
    ReplaceSkip(" ", " " + (d + ("  " + (". " + (e + ")")))), ")", "");
    ReplaceSkip(" ", d + ("  " + (". " + (e + ")"))), ")", "");
    ReplaceSkip(d, "  " + (". " + (e + ")")), ")", "");
    ReplaceSkip("  ", ". " + (e + ")"), ")", "");
    ReplaceSkip(". ", e + ")", ")", "");
    ReplaceSkip(e, ")", ")", "");
    assert ")" == ")" + "";
    ReplaceHit("", ")", "");
    assert e + "" == e;
  }

  /** The spaces around the dot go. */
  lemma DeleteSpacesAroundDot(e: string)
    requires IsNumber(e)
    ensures Replace("  " + (". " + e), " ", "") == "." + e
  {
    assert " " == " " + "";
    ReplaceHit("", " ", "");
    assert "  " == " " + " ";
    ReplaceCharAppend(" ", " ", ' ', "");
    assert ". " == "." + " ";
    ReplaceAbsent(".", " ", "");
    ReplaceCharAppend(".", " ", ' ', "");
    ReplaceAbsent(e, " ", "");
    ReplaceCharAppend(". ", e, ' ', "");
    ReplaceCharAppend("  ", ". " + e, ' ', "");
    assert "" + "" == "" && "." + "" == ".";
  }

  lemma DeleteSpaces(d: string, e: string)
    requires IsNumber(d) && IsNumber(e)
    ensures Replace(" " + (" " + (" " + (d + ("  " + (". " + e))))), " ", "") == d + ("." + e)
  {
    var x := "  " + (". " + e);
    DeleteSpacesAroundDot(e);
    assert " " == " " + "";
    ReplaceHit("", " ", "");
    ReplaceAbsent(d, " ", "");
    ReplaceCharAppend(d, x, ' ', "");
    ReplaceCharAppend(" ", d + x, ' ', "");
    ReplaceCharAppend(" ", " " + (d + x), ' ', "");
    ReplaceCharAppend(" ", " " + (" " + (d + x)), ' ', "");
  }

  // ------------------------------------------------------------ whole shapes

  lemma TailLetters(d: string, e: string)
    requires IsNumber(d) && IsNumber(e)
    ensures 'm' !in Tail(d, e) && 'w' !in Tail(d, e)
  {
    assert forall c :: c in Tail(d, e) ==> c in d || c in e || c in "version  (build )";
  }

  /** The last five steps, common to both shapes, turn `  version <d>  (build <e>)` into `<d>.<e>`. */
  lemma TailSteps(d: string, e: string)
    requires IsNumber(d) && IsNumber(e)
    ensures var v3 := " " + (" " + Tail(d, e));
      Replace(Replace(Replace(Replace(Replace(v3, "version", ""), "build", "."), "(", ""), ")", ""), " ", "") ==
      d + "." + e
  {
    DeleteVersion(d, e);
    BuildToDot(d, e);
    DeleteOpen(d, e);
    DeleteClose(d, e);
    DeleteSpaces(d, e);
    assert d + ("." + e) == d + "." + e;
  }

  /**
   * `Microsoft Windows 8.1 version <d>  (Build <e>)` becomes `<d>.<e>`
   * for any version and build numbers.
   */
  lemma OsVersionWindows81Shape(report: Report, d: string, e: string)
    requires IsNumber(d) && IsNumber(e)
    requires report.clientInfo.systemInfo.osVersion == "Microsoft " + ("Windows 8.1 " + RawTail(d, e))
    ensures ParseOsVersion(report) == d + "." + e
  {
    var t := Tail(d, e);
    TailLetters(d, e);
    LowerShape("Windows 8.1 ", "8.1 ", d, e);
    assert "windows " + "8.1 " == "windows 8.1 ";
    var v0 := Lower(report.clientInfo.systemInfo.osVersion);
    assert v0 == "microsoft " + ("windows 8.1 " + t);
    assert 'm' !in "windows 8.1 " + t;
    DeleteMicrosoft("windows 8.1 " + t);
    var v1 := Replace(v0, "microsoft", "");
    assert v1 == " " + ("windows 8.1 " + t);
    KeepWindows81(t);
    var v2 := Replace(v1, "windows 10", "");
    assert v2 == v1;
    assert "windows 8.1 " + t == "windows 8.1" + " " + t;
    DeleteWindowsWord("windows 8.1", t);
    var v3 := Replace(v2, "windows 8.1", "");
    assert v3 == " " + (" " + t);
    TailSteps(d, e);
  }

  /**
   * `Microsoft Windows 10 version <d>  (Build <e>)` becomes `<d>.<e>`
   * for any version and build numbers.
   */
  lemma OsVersionWindows10Shape(report: Report, d: string, e: string)
    requires IsNumber(d) && IsNumber(e)
    requires report.clientInfo.systemInfo.osVersion == "Microsoft " + ("Windows 10 " + RawTail(d, e))
    ensures ParseOsVersion(report) == d + "." + e
  {
    var t := Tail(d, e);
    TailLetters(d, e);
    LowerShape("Windows 10 ", "10 ", d, e);
    assert "windows " + "10 " == "windows 10 ";
    var v0 := Lower(report.clientInfo.systemInfo.osVersion);
    assert v0 == "microsoft " + ("windows 10 " + t);
    assert 'm' !in "windows 10 " + t;
    DeleteMicrosoft("windows 10 " + t);
    var v1 := Replace(v0, "microsoft", "");
    assert v1 == " " + ("windows 10 " + t);
    assert "windows 10 " + t == "windows 10" + " " + t;
    DeleteWindowsWord("windows 10", t);
    var v2 := Replace(v1, "windows 10", "");
    assert v2 == " " + (" " + t);
    assert 'w' !in v2;
    ReplaceAbsent(v2, "windows 8.1", "");
    var v3 := Replace(v2, "windows 8.1", "");
    assert v3 == v2;
    TailSteps(d, e);
  }

  lemma Windows81Tail()
    ensures RawTail("6.3", "9600") == "version 6.3  (Build 9600)"
  {
  }

  lemma Windows81Words()
    ensures "Windows 8.1 " + "version 6.3  (Build 9600)" == "Windows 8.1 version 6.3  (Build 9600)"
  {
  }

  lemma Windows81Vendor()
    ensures "Microsoft " + "Windows 8.1 version 6.3  (Build 9600)" == "Microsoft Windows 8.1 version 6.3  (Build 9600)"
  {
  }

  lemma Windows81Literal()
    ensures "Microsoft Windows 8.1 version 6.3  (Build 9600)" == "Microsoft " + ("Windows 8.1 " + RawTail("6.3", "9600"))
  {
    Windows81Tail();
    Windows81Words();
    Windows81Vendor();
  }

  /** The Windows 8.1 example of `parse_os_version`. */
  lemma OsVersionWindows81(report: Report)
    requires report.clientInfo.systemInfo.osVersion == "Microsoft Windows 8.1 version 6.3  (Build 9600)"
    ensures ParseOsVersion(report) == "6.3.9600"
  {
    Windows81Literal();
    OsVersionWindows81Shape(report, "6.3", "9600");
    assert "6.3" + "." + "9600" == "6.3.9600";
  }

  lemma Windows10Tail()
    ensures RawTail("10.0", "19042") == "version 10.0  (Build 19042)"
  {
  }

  lemma Windows10Words()
    ensures "Windows 10 " + "version 10.0  (Build 19042)" == "Windows 10 version 10.0  (Build 19042)"
  {
  }

  lemma Windows10Vendor()
    ensures "Microsoft " + "Windows 10 version 10.0  (Build 19042)" == "Microsoft Windows 10 version 10.0  (Build 19042)"
  {
  }

  lemma Windows10Literal()
    ensures "Microsoft Windows 10 version 10.0  (Build 19042)" == "Microsoft " + ("Windows 10 " + RawTail("10.0", "19042"))
  {
    Windows10Tail();
    Windows10Words();
    Windows10Vendor();
  }

  /** The Windows 10 example of `parse_os_version`. */
  lemma OsVersionWindows10(report: Report)
    requires report.clientInfo.systemInfo.osVersion == "Microsoft Windows 10 version 10.0  (Build 19042)"
    ensures ParseOsVersion(report) == "10.0.19042"
  {
    Windows10Literal();
    OsVersionWindows10Shape(report, "10.0", "19042");
    assert "10.0" + "." + "19042" == "10.0.19042";
  }

  // -------------------------------------------------------------- exceptions

  lemma FormBoomText()
    ensures "{Form}:Boom" == "{Form}" + ":" + "Boom"
  {
  }

  lemma FormBraces()
    ensures "{Form}" == "{" + "Form" + "}"
  {
  }

  lemma OpenBraceGoes()
    ensures Without("{" + "Form" + "}", '{') == "Form" + "}"
  {
    WithoutAppend("{" + "Form", "}", '{');
    WithoutAppend("{", "Form", '{');
    WithoutAbsent("Form", '{');
    WithoutAbsent("}", '{');
    assert Without("{", '{') == [];
    assert [] + "Form" == "Form";
  }

  lemma CloseBraceGoes()
    ensures Without("Form" + "}", '}') == "Form"
  {
    WithoutAppend("Form", "}", '}');
    WithoutAbsent("Form", '}');
    assert Without("}", '}') == [];
    assert "Form" + [] == "Form";
  }

  /** Both braces of `{Form}` go, the letters stay. */
  lemma FormBoomModule()
    ensures Without(Without("{Form}", '{'), '}') == "Form"
  {
    FormBraces();
    OpenBraceGoes();
    CloseBraceGoes();
  }

  lemma TwoTypes()
    ensures Join(["E1", "E2"], ", ") == "E1, E2"
  {
  }

  /** `{Form}:Boom` names the module `Form` and the value `Boom`. */
  lemma ExceptionExample(report: Report)
    requires report.errorInfo.applicationErrorInfo.errors == Some([ErrorEntry("{Form}:Boom", ["E1", "E2"])])
    ensures ParseException(report) == ParsedException("E1, E2", "Boom", "Form", StackTraceOf(report))
  {
    var text := "{Form}:Boom";
    FormBoomText();
    assert text[..6] == "{Form}" && text[6] == ':' && text[7..] == "Boom";
    ExceptionWithOneColon(report, 6);
    FormBoomModule();
    TwoTypes();
  }

  /** A text with two colons splits into three parts: no module and the missing-text value. */
  lemma ExceptionTwoColons(report: Report)
    requires report.errorInfo.applicationErrorInfo.errors == Some([ErrorEntry("a:b:c", [])])
    ensures ParseException(report) == ParsedException("", MissingText, "", StackTraceOf(report))
  {
    assert Count("a:b:c", ':') == 2;
  }

  // ------------------------------------------------------------------- users

  lemma UserUndefinedExample(report: Report)
    requires report.sessionInfo.userName.None? && report.sessionInfo.dataSeparation == "S1"
    ensures UserOf(report) == UserIdentity("<Undefined>S1", "<Undefined>")
  {
  }

  // ------------------------------------------------------------ architecture

  lemma ArchExamples(report: Report)
    ensures report.clientInfo.platformType == "Windows_x86" ==> ParseArch(report) == "x86"
    ensures report.clientInfo.platformType == "Windows_x86_64" ==> ParseArch(report) == "x86_64"
  {
    if report.clientInfo.platformType == "Windows_x86_64" {
      assert "Windows_x86_64"[11..] == "_64";
    }
  }

  lemma OsNameExample(report: Report)
    requires report.clientInfo.platformType == "Linux_x86_64"
    ensures ParseOsName(report) == "Linux"
  {
    assert Lower("Linux_x86_64")[..5] == "linux";
  }

  // -------------------------------------------------------------- breadcrumbs

  /**
   * An event with a name and a comment only: the empty meta and data add
   * no line, the comment has its heading on a line of its own.
   */
  lemma BreadcrumbExample(e: LogEvent)
    requires e == LogEvent("Error", "Start", "", "", "c", JNull)
    ensures BreadcrumbOf(e) == Breadcrumb("log", "Event: Start\nComment:\nc", "error", JNull)
  {
    assert "Event: " + "Start" == "Event: Start";
    assert "Event: Start" + "\nComment:\n" == "Event: Start\nComment:\n";
    assert "Event: Start\nComment:\n" + "c" == "Event: Start\nComment:\nc";
  }
}
