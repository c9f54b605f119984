/**
 * The state the desktop form keeps between button presses: the log of results that
 * "Add Address" appends to, "Clear All" empties and "Save Report" writes out.
 * The widgets themselves are not modelled: the three entry fields arrive as typed values,
 * the file dialog's answer as a path, and the error pop-ups as the outcome returned.
 */
module Session {
  import opened Text
  import opened Scorer
  import opened Report

  /** What pressing "Add Address" did: stored this result, or refused with one of the two errors. */
  datatype AddOutcome = Added(entry: Assessment) | MissingAddress | NegativeValue

  /** What pressing "Save Report" did: nothing to save, dialog cancelled, or these lines written. */
  datatype SaveOutcome = NothingToSave | Cancelled | Written(path: string, lines: seq<string>)

  /** What every stored result satisfies: a non-empty address that neither begins nor ends
      with whitespace (what `Strip` returns), a score in [0, 100] and the level that score
      falls in. */
  predicate WellFormed(a: Assessment) {
    && a.address != []
    && !IsSpace(a.address[0]) && !IsSpace(a.address[|a.address| - 1])
    && 0 <= a.score <= SCORE_CAP
    && a.level == LevelOf(a.score)
  }

  class RiskScorerSession {
    /** The denylist the scorer consults (the source uses its global `HIGH_RISK_ADDRESSES`). */
    const denylist: seq<string>
    /** `self.results`, oldest first. */
    var results: seq<Assessment>

    /** The session invariant: every stored result is well formed. Every method keeps it;
        it is stated as a property of the log, and no other contract depends on it. */
    ghost predicate Valid()
      reads this
    {
      forall k :: 0 <= k < |results| ==> WellFormed(results[k])
    }

    /** A new session starts with an empty log. */
    constructor (denylist: seq<string>)
      ensures this.denylist == denylist
      ensures results == [] && Valid()
    {
      this.denylist := denylist;
      results := [];
    }

    /** `add_address`: strip the address; refuse an empty one; refuse a negative amount or
        transaction count; otherwise score the stripped address and append exactly one result. */
    method AddAddress(rawAddress: string, amount: real, transactions: int) returns (outcome: AddOutcome)
      requires Valid()
      modifies this
      ensures Valid()
      ensures var address := Strip(rawAddress);
        if address == [] then
          outcome == MissingAddress && results == old(results)
        else if amount < 0.0 || transactions < 0 then
          outcome == NegativeValue && results == old(results)
        else
          var risk := Assess(address, amount, transactions, denylist);
          && outcome == Added(Assessment(address, risk.score, risk.level, risk.reasons))
          && results == old(results) + [outcome.entry]
    {
      var address := Strip(rawAddress);
      if address == [] {
        return MissingAddress;
      }
      if amount < 0.0 || transactions < 0 {
        return NegativeValue;
      }
      var score, level, details := CalculateRiskScore(address, amount, transactions, denylist);
      var result := Assessment(address, score, level, details);
      ScoreBounds(address, amount, transactions, denylist);
      assert WellFormed(result);
      AppendKeepsWellFormed(results, result);
      results := results + [result];
      outcome := Added(result);
    }

    /** `clear_all`: the log is emptied. */
    method ClearAll()
      requires Valid()
      modifies this
      ensures results == [] && Valid()
    {
      results := [];
    }

    /** `save_report`: with an empty log nothing is saved; if the dialog returns no path nothing
        is written; otherwise the title block and one entry per result, in log order. */
    method SaveReport(chosenPath: string) returns (outcome: SaveOutcome)
      ensures outcome == if results == [] then NothingToSave
                         else if chosenPath == "" then Cancelled
                         else Written(chosenPath, Document(results))
    {
      if results == [] {
        return NothingToSave;
      }
      if chosenPath == "" {
        return Cancelled;
      }
      var lines := Header();
      var i := 0;
      DocumentStart(results);
      while i < |results|
        invariant 0 <= i <= |results|
        invariant lines == Document(results[..i])
      {
        lines := WriteEntry(lines, i + 1, results[i]);
        DocumentStep(results, i);
        i := i + 1;
      }
      assert results[..i] == results;
      outcome := Written(chosenPath, lines);
    }
  }

  /** The body of the `for i, result in enumerate(self.results, 1)` loop of `save_report`:
      the lines of one entry, appended to what is written so far. */
  method WriteEntry(lines: seq<string>, index: nat, result: Assessment) returns (written: seq<string>)
    ensures written == lines + Entry(index, result)
  {
    written := lines + ["Address " + NatToString(index) + ":"];
    written := written + ["Address: " + result.address];
    written := written + ["Risk Score: " + IntToString(result.score) + "/100"];
    written := written + ["Risk Level: " + result.level.Name()];
    ghost var head := written;
    assert head == lines + EntryHead(index, result);
    if result.details != [] {
      written := WriteReasons(written + [REASONS_HEADING], result.details);
    }
    assert written == head + ReasonsBlock(result);
    written := written + [Separator()];
  }

  /** The inner `for reason in result['details']` loop: one "- reason" line per reason. */
  method WriteReasons(lines: seq<string>, reasons: seq<string>) returns (written: seq<string>)
    ensures written == lines + ReasonLines(reasons)
  {
    written := lines;
    var j := 0;
    while j < |reasons|
      invariant 0 <= j <= |reasons|
      invariant written == lines + ReasonLines(reasons[..j])
    {
      assert reasons[..j + 1][..j] == reasons[..j];
      written := written + ["- " + reasons[j]];
      j := j + 1;
    }
    assert reasons[..j] == reasons;
  }

  /** Every result of `log + [entry]` is well formed when those of `log` and `entry` are. */
  lemma AppendKeepsWellFormed(log: seq<Assessment>, entry: Assessment)
    requires forall k :: 0 <= k < |log| ==> WellFormed(log[k])
    requires WellFormed(entry)
    ensures forall k :: 0 <= k < |log + [entry]| ==> WellFormed((log + [entry])[k])
  {
  }

  /** A session that accepts a result adds exactly one entry, numbered after the existing ones,
      to the end of the report. */
  lemma AcceptedResultExtendsReport(log: seq<Assessment>, entry: Assessment)
    ensures Document(log + [entry]) == Document(log) + Entry(|log| + 1, entry)
  {
    BodyAppend(log, entry);
  }
}
