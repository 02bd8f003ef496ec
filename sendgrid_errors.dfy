/**
 * The aggregated error report the handler logs when SendGrid answers a
 * send with a non-success status: a fixed prefix, then one line per entry
 * of the response's `errors` array, with every trailing newline trimmed.
 */
module SendGridErrors {
  import opened Wrappers

  /**
   * One entry of the `errors` array. A member that is absent (or a JSON
   * null) is None; otherwise it carries the member's string form.
   */
  datatype ErrorEntry = ErrorEntry(message: Option<string>, field: Option<string>, help: Option<string>)

  /**
   * What the handler reads of a SendGrid response: its status and, when
   * the body holds an `errors` array, that array's entries.
   */
  datatype Response = Response(isSuccessStatusCode: bool, errors: Option<seq<ErrorEntry>>)

  const ErrorPrefix: string := "Error when sending email via SendGrid: "

  /** `string.IsNullOrEmpty`. */
  predicate IsNullOrEmpty(s: Option<string>) {
    s.None? || s.value == ""
  }

  /** What `errorString += s` appends: nothing for null. */
  function Appended(s: Option<string>): string {
    s.GetOr("")
  }

  /** " (field: f)" for a non-empty field, else nothing. */
  function FieldPart(e: ErrorEntry): string {
    if IsNullOrEmpty(e.field) then "" else " (field: " + e.field.value + ")"
  }

  /** " (help: h)" for a non-empty help text, else nothing. */
  function HelpPart(e: ErrorEntry): string {
    if IsNullOrEmpty(e.help) then "" else " (help: " + e.help.value + ")"
  }

  /** The text one entry contributes: its message, then the field, then the help suffix. */
  function EntryText(e: ErrorEntry): (r: string)
    ensures Appended(e.message) <= r
    ensures r == "" <==> IsNullOrEmpty(e.message) && IsNullOrEmpty(e.field) && IsNullOrEmpty(e.help)
  {
    assert Appended(e.message) + FieldPart(e) + HelpPart(e) == Appended(e.message) + (FieldPart(e) + HelpPart(e));
    Appended(e.message) + FieldPart(e) + HelpPart(e)
  }

  /** One pass of the loop over the entries: message, optional field, optional help, newline. */
  function AppendEntry(errorString: string, e: ErrorEntry): string {
    var withMessage := errorString + Appended(e.message);
    var withField := if IsNullOrEmpty(e.field) then withMessage else withMessage + " (field: " + e.field.value + ")";
    var withHelp := if IsNullOrEmpty(e.help) then withField else withField + " (help: " + e.help.value + ")";
    withHelp + "\n"
  }

  /** The error string after the loop has passed over `es`, starting from `start`. */
  function AppendEntries(start: string, es: seq<ErrorEntry>): string {
    if es == [] then start else AppendEntry(AppendEntries(start, es[..|es| - 1]), es[|es| - 1])
  }

  /** One more entry extends the string the loop has built. */
  lemma AppendEntriesStep(start: string, es: seq<ErrorEntry>, i: nat)
    requires i < |es|
    ensures AppendEntries(start, es[..i + 1]) == AppendEntry(AppendEntries(start, es[..i]), es[i])
  {
    assert es[..i + 1][..i] == es[..i];
  }

  /** Each pass appends the entry's text and a newline. */
  lemma AppendEntryIsText(errorString: string, e: ErrorEntry)
    ensures AppendEntry(errorString, e) == errorString + EntryText(e) + "\n"
  {
    var m, f, h := Appended(e.message), FieldPart(e), HelpPart(e);
    assert errorString + m + f + h == errorString + (m + f + h);
  }

  /** `TrimEnd('\n')`: the longest prefix of `s` that does not end in a newline. */
  function TrimEnd(s: string): (r: string)
    ensures r <= s
    ensures r == [] || r[|r| - 1] != '\n'
    ensures forall i :: |r| <= i < |s| ==> s[i] == '\n'
    decreases |s|
  {
    if s != [] && s[|s| - 1] == '\n' then TrimEnd(s[..|s| - 1]) else s
  }

  /** The string logged for a failure response; None when there is no `errors` array. */
  function ErrorReport(errors: Option<seq<ErrorEntry>>): (r: Option<string>)
    ensures r.None? <==> errors.None?
  {
    match errors
    case None => None
    case Some(es) => Some(TrimEnd(AppendEntries(ErrorPrefix, es)))
  }

  /** The entries' texts separated by "\n", with no separator after the last. */
  function Joined(es: seq<ErrorEntry>): string {
    if es == [] then ""
    else if |es| == 1 then EntryText(es[0])
    else Joined(es[..|es| - 1]) + "\n" + EntryText(es[|es| - 1])
  }

  /** Regrouping a concatenation of five strings. */
  lemma Regroup(a: string, b: string, c: string, d: string, e: string)
    ensures a + b + c + d + e == a + (b + c + d) + e
  {
  }

  /** The loop's string is the start, the entries' texts joined by newlines, and one final newline. */
  lemma {:induction false} AppendEntriesIsJoined(start: string, es: seq<ErrorEntry>)
    requires es != []
    ensures AppendEntries(start, es) == start + Joined(es) + "\n"
  {
    var n := |es|;
    var init, last := es[..n - 1], es[n - 1];
    AppendEntryIsText(AppendEntries(start, init), last);
    if n == 1 {
      assert init == [];
    } else {
      AppendEntriesIsJoined(start, init);
      Regroup(start, Joined(init), "\n", EntryText(last), "\n");
    }
  }

  /** The joined text ends with the last entry's text. */
  lemma JoinedEndsWithLast(es: seq<ErrorEntry>)
    requires es != []
    ensures var t, j := EntryText(es[|es| - 1]), Joined(es); |t| <= |j| && j[|j| - |t|..] == t
  {
    var t := EntryText(es[|es| - 1]);
    if |es| > 1 {
      var prefix := Joined(es[..|es| - 1]) + "\n";
      assert Joined(es) == prefix + t;
      assert (prefix + t)[|prefix|..] == t;
    }
  }

  /** A character-level test for trimming: a string that does not end in a newline is its own trim. */
  lemma TrimEndOfTrimmed(s: string)
    requires s == [] || s[|s| - 1] != '\n'
    ensures TrimEnd(s) == s
  {
  }

  /** A trailing newline makes no difference to the trimmed string. */
  lemma TrimEndDropsNewline(s: string)
    ensures TrimEnd(s + "\n") == TrimEnd(s)
  {
    assert (s + "\n")[..|s|] == s;
  }

  /** Trimming never reaches into a prefix that does not end in a newline. */
  lemma TrimEndKeepsPrefix(p: string, s: string)
    requires p != [] && p[|p| - 1] != '\n'
    ensures p <= TrimEnd(p + s)
  {
    var r := TrimEnd(p + s);
    assert |r| >= |p|;
    assert r[..|p|] == (p + s)[..|p|] == p;
  }

  /**
   * The logged report starts with the fixed prefix, never ends in a
   * newline, and is the prefix followed by the entries joined by "\n",
   * trimmed.
   */
  lemma ErrorReportShape(es: seq<ErrorEntry>)
    ensures ErrorReport(Some(es)).Some?
    ensures ErrorPrefix <= ErrorReport(Some(es)).value
    ensures var r := ErrorReport(Some(es)).value; r == [] || r[|r| - 1] != '\n'
    ensures ErrorReport(Some(es)).value == TrimEnd(ErrorPrefix + Joined(es))
  {
    if es != [] {
      AppendEntriesIsJoined(ErrorPrefix, es);
      TrimEndDropsNewline(ErrorPrefix + Joined(es));
    } else {
      assert ErrorPrefix + Joined(es) == ErrorPrefix;
    }
    TrimEndKeepsPrefix(ErrorPrefix, Joined(es));
  }

  /** An empty `errors` array logs exactly the prefix. */
  lemma ErrorReportOfEmptyArray()
    ensures ErrorReport(Some([])) == Some(ErrorPrefix)
  {
    TrimEndOfTrimmed(ErrorPrefix);
  }

  /**
   * When the last entry contributes text that does not end in a newline,
   * nothing is trimmed: the report is exactly the prefix followed by the
   * entries joined by "\n".
   */
  lemma ErrorReportUntrimmed(es: seq<ErrorEntry>)
    requires es != []
    requires var t := EntryText(es[|es| - 1]); t != "" && t[|t| - 1] != '\n'
    ensures ErrorReport(Some(es)) == Some(ErrorPrefix + Joined(es))
  {
    var t := EntryText(es[|es| - 1]);
    var joined := Joined(es);
    AppendEntriesIsJoined(ErrorPrefix, es);
    TrimEndDropsNewline(ErrorPrefix + joined);
    JoinedEndsWithLast(es);
    assert joined[|joined| - 1] == t[|t| - 1];
    var j := ErrorPrefix + joined;
    assert j[|j| - 1] == joined[|joined| - 1];
    TrimEndOfTrimmed(j);
  }
}
