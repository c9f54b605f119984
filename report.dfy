/**
 * The lines `save_report` writes: a title block, then one entry per stored result in log
 * order, numbered from 1, each with an optional "Reasons:" block and a closing rule of 50
 * dashes. `Body` is the reference definition; the lemmas say where each entry sits in it.
 */
module Report {
  import opened Text
  import opened Scorer

  /** One stored result: the record `add_address` appends to the session log. */
  datatype Assessment = Assessment(address: string, score: int, level: Level, details: seq<string>)

  const TITLE := "Blockchain Address Risk Assessment Report"
  const REASONS_HEADING := "Reasons:"
  const RULE_WIDTH := 50

  /** The title, a rule of 50 '=' and an empty line. */
  function Header(): seq<string> {
    [TITLE, Repeat('=', RULE_WIDTH), ""]
  }

  /** The line that closes every entry. */
  function Separator(): string {
    Repeat('-', RULE_WIDTH)
  }

  /** One "- reason" line per reason, in order. */
  function ReasonLines(reasons: seq<string>): (lines: seq<string>)
    ensures |lines| == |reasons|
    ensures forall k :: 0 <= k < |reasons| ==> lines[k] == "- " + reasons[k]
  {
    if reasons == [] then []
    else ReasonLines(reasons[..|reasons| - 1]) + ["- " + reasons[|reasons| - 1]]
  }

  /** The four lines every entry starts with. */
  function EntryHead(index: nat, a: Assessment): seq<string> {
    [ "Address " + NatToString(index) + ":",
      "Address: " + a.address,
      "Risk Score: " + IntToString(a.score) + "/100",
      "Risk Level: " + a.level.Name() ]
  }

  /** The "Reasons:" block, present only when the result has details. */
  function ReasonsBlock(a: Assessment): seq<string> {
    if a.details == [] then [] else [REASONS_HEADING] + ReasonLines(a.details)
  }

  /** The entry for the `index`-th result. */
  function Entry(index: nat, a: Assessment): seq<string> {
    EntryHead(index, a) + ReasonsBlock(a) + [Separator()]
  }

  /** The entries of all results, the `i`-th (from 1) for the `i`-th result of the log. */
  function Body(log: seq<Assessment>): seq<string> {
    if log == [] then [] else Body(log[..|log| - 1]) + Entry(|log|, log[|log| - 1])
  }

  /** Everything written to the file (the timestamp line is not part of this model). */
  function Document(log: seq<Assessment>): seq<string> {
    Header() + Body(log)
  }

  // ---------------------------------------------------------------------------------------
  // The shape of the report

  /** An entry is the numbered heading, the address, score and level lines, then either the
      "Reasons:" heading and one line per reason, or nothing, then the rule. */
  lemma EntryShape(index: nat, a: Assessment)
    ensures var e := Entry(index, a);
      && |e| == (if a.details == [] then 5 else 6 + |a.details|)
      && e[0] == "Address " + NatToString(index) + ":"
      && e[1] == "Address: " + a.address
      && e[2] == "Risk Score: " + IntToString(a.score) + "/100"
      && e[3] == "Risk Level: " + a.level.Name()
      && (a.details != [] ==>
            && e[4] == REASONS_HEADING
            && forall k :: 0 <= k < |a.details| ==> e[5 + k] == "- " + a.details[k])
      && e[|e| - 1] == Separator()
  {
  }

  /** The "Reasons:" heading appears in an entry exactly when the result has details. */
  lemma ReasonsHeadingIffDetails(index: nat, a: Assessment)
    ensures REASONS_HEADING in Entry(index, a) <==> a.details != []
  {
  }

  /** The report of a log grown by one result is the old report followed by that result's entry. */
  lemma BodyAppend(log: seq<Assessment>, a: Assessment)
    ensures Body(log + [a]) == Body(log) + Entry(|log| + 1, a)
  {
  }

  /** Taking one more result of the log adds that result's entry to the report. */
  lemma BodyStep(log: seq<Assessment>, n: nat)
    requires n < |log|
    ensures Body(log[..n + 1]) == Body(log[..n]) + Entry(n + 1, log[n])
  {
    var longer := log[..n + 1];
    assert longer[..|longer| - 1] == log[..n];
  }

  /** Before any entry only the title block is written. */
  lemma DocumentStart(log: seq<Assessment>)
    ensures Document(log[..0]) == Header()
  {
  }

  /** Writing the entry of the next result extends the document by exactly that entry. */
  lemma DocumentStep(log: seq<Assessment>, n: nat)
    requires n < |log|
    ensures Document(log[..n + 1]) == Document(log[..n]) + Entry(n + 1, log[n])
  {
    BodyStep(log, n);
  }

  /** The report of every prefix of the log is a prefix of the report. */
  lemma {:induction false} BodyPrefix(log: seq<Assessment>, n: nat)
    requires n <= |log|
    ensures Body(log[..n]) <= Body(log)
    decreases |log| - n
  {
    if n < |log| {
      BodyPrefix(log, n + 1);
      BodyStep(log, n);
      PrefixOfAppend(Body(log[..n]), Entry(n + 1, log[n]), Body(log));
    } else {
      assert log[..n] == log;
    }
  }

  /** The entry of the `k`-th result (counting from 0) is numbered `k + 1` and comes right
      after the entries of the results before it: together they begin the report. */
  lemma EntryAt(log: seq<Assessment>, k: nat)
    requires k < |log|
    ensures Body(log[..k]) + Entry(k + 1, log[k]) <= Body(log)
  {
    BodyPrefix(log, k + 1);
    BodyStep(log, k);
  }

  lemma PrefixOfAppend<T>(a: seq<T>, b: seq<T>, c: seq<T>)
    requires a + b <= c
    ensures a <= c
  {
  }
}
