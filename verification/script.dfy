/**
 * The browser's own rules, public/script.js: the offline source table and the
 * colours of its verdict, the offline fine, the declaration form's required
 * fields and offline reference, the relationship-driven checkbox and the
 * status filter over the gift table's rows.
 */
module BrowserScript {
  import opened Wrappers
  import opened Js
  import opened SourceRules
  import opened References
  import ApiPenalty
  import Server

  // fallbackCheckSource and displayCheckResult

  const SeeksAction: Classification := Classification(
    "PROHIBITED SOURCE",
    "This giver is a prohibited source under Rule 8(a). You cannot accept gifts from them.",
    Rule8a + ": Who seeks official action or business from the public servant's agency.",
    Some(true))

  const DoesBusiness: Classification := Classification(
    "PROHIBITED SOURCE",
    "This giver is a prohibited source under Rule 8(b). You cannot accept gifts from them.",
    Rule8b + ": Who does business or seeks to do business with the public servant's agency.",
    Some(true))

  const Regulated: Classification := Classification(
    "PROHIBITED SOURCE",
    "This giver is a prohibited source under Rule 8(c). You cannot accept gifts from them.",
    Rule8c + ": Who conducts activities regulated by the public servant's agency.",
    Some(true))

  const Family: Classification := Classification(
    "ALLOWED (with conditions)",
    "Gifts from immediate relatives are allowed if clearly motivated by the relationship rather than official position.",
    Rule11b + ": Gift from an immediate relative when the circumstances make it clear that it is the relationship rather than the position which is the motivating factor.",
    Some(false))

  const FallbackTable: map<string, Classification> :=
    map["seeks-action" := SeeksAction, "does-business" := DoesBusiness, "regulated" := Regulated, "family" := Family]

  /** The result object `fallbackCheckSource` hands to `displayCheckResult`: `results[v] || REVIEW_REQUIRED`. */
  function FallbackCheckSource(selected: string): Object
  {
    LookupAsWritten(FallbackTable, selected)
  }

  datatype Colours = Colours(background: string, text: string)

  const ProhibitedColours: Colours := Colours("#f8d7da", "#721c24")
  const AllowedColours: Colours := Colours("#d4edda", "#155724")
  const ReviewColours: Colours := Colours("#cce5ff", "#004085")

  /** `result.isProhibited === true` is red, `=== false` green, anything else (null, missing) blue. */
  function ResultColours(result: Object): Colours
  {
    if "isProhibited" in result && result["isProhibited"] == Bool(true) then ProhibitedColours
    else if "isProhibited" in result && result["isProhibited"] == Bool(false) then AllowedColours
    else ReviewColours
  }

  /**
   * The fallback's verdicts, read from the object `fallbackCheckSource` returns:
   * prohibited for "seeks-action", "does-business" and "regulated" (Rules 8(a),
   * 8(b), 8(c)), allowed for "family" (Rule 11(b)), REVIEW REQUIRED for every
   * other key that is not an Object.prototype member name, and no fields at all
   * for those inherited names.
   */
  lemma FallbackVerdicts(key: string)
    ensures var r := FallbackCheckSource(key);
      && ("isProhibited" in r && r["isProhibited"] == Bool(true) <==>
            key == "seeks-action" || key == "does-business" || key == "regulated")
      && ("isProhibited" in r && r["isProhibited"] == Bool(false) <==> key == "family")
    ensures key == "seeks-action" ==> Rule8a <= Classify(FallbackTable, key).rule
    ensures key == "does-business" ==> Rule8b <= Classify(FallbackTable, key).rule
    ensures key == "regulated" ==> Rule8c <= Classify(FallbackTable, key).rule
    ensures key == "family" ==> Rule11b <= Classify(FallbackTable, key).rule
    ensures key !in ObjectPrototypeKeys ==> FallbackCheckSource(key) == Fields(Classify(FallbackTable, key))
    ensures key !in FallbackTable && key !in ObjectPrototypeKeys ==> FallbackCheckSource(key) == Fields(ReviewRequired)
    ensures key in ObjectPrototypeKeys ==> FallbackCheckSource(key) == map[]
  {
    LookupAsWrittenOwnKeys(FallbackTable, key);
  }

  /**
   * The colour shown for every selected key, inherited member names included:
   * red exactly for a prohibited verdict, green exactly for an allowed one, blue otherwise.
   */
  lemma FallbackColours(selected: string)
    ensures var c := ResultColours(FallbackCheckSource(selected));
      var v := Classify(FallbackTable, selected).isProhibited;
      && (c == ProhibitedColours <==> v == Some(true))
      && (c == AllowedColours <==> v == Some(false))
      && (c == ReviewColours <==> v == None)
  {
    LookupAsWrittenOwnKeys(FallbackTable, selected);
  }

  /**
   * The server's table is contained in the fallback's as far as verdicts and
   * rules go: wherever the server gives a verdict, the fallback gives the same
   * verdict, title and rule. The wording of the "family" description differs,
   * and "regulated" is only known here.
   */
  lemma AgreesWithServer(key: string)
    ensures Classify(Server.Table, key).isProhibited.Some? ==>
              && Classify(FallbackTable, key).isProhibited == Classify(Server.Table, key).isProhibited
              && Classify(FallbackTable, key).title == Classify(Server.Table, key).title
              && Classify(FallbackTable, key).rule == Classify(Server.Table, key).rule
    ensures Classify(FallbackTable, key).isProhibited != Classify(Server.Table, key).isProhibited <==> key == "regulated"
    ensures Classify(FallbackTable, "family").desc != Classify(Server.Table, "family").desc
  {
    assert Family.desc[|Server.Family.desc| - 1] != Server.Family.desc[|Server.Family.desc| - 1];
  }

  // calculateFine's local fallback

  /** The `switch (breachNum)`: 1 gives 2, 2 gives 5, 3 gives 10, anything else (NaN included) 2. */
  function FallbackMultiplier(breachNum: Option<int>): int
  {
    match breachNum
    case Some(1) => 2
    case Some(2) => 5
    case Some(3) => 10
    case _ => 2
  }

  /** The text the calculator shows: `Nu. ${(value * multiplier).toLocaleString()}`, with `value = parseFloat(...) || 0`. */
  function FallbackFineText(value: Option<real>, breachNum: Option<int>, locale: real -> string): string
  {
    "Nu. " + locale(RealOr(value, 0.0) * FallbackMultiplier(breachNum) as real)
  }

  /** The switch and the server's array expression give the same multiplier for every parse result. */
  lemma FallbackMultiplierAgrees(breachNum: Option<int>)
    ensures FallbackMultiplier(breachNum) == ApiPenalty.Multiplier(breachNum)
    ensures FallbackMultiplier(breachNum) == Server.CalculatePenalty(ApiPenalty.PenaltyRequest(None, breachNum), x => "").payload.body.multiplier
  {
  }

  /**
   * The offline text shows the fine the server would compute for the same inputs
   * (the page sends the numbers it parsed, and the server parses them back
   * unchanged), formatted by the browser's `toLocaleString`. The browser and the
   * server format independently, so the texts are equal when the two formatters
   * agree on that fine.
   */
  lemma FallbackFineAgrees(value: Option<real>, breachNum: Option<int>,
                           browserLocale: real -> string, serverLocale: real -> string)
    ensures var server := ApiPenalty.Compute(ApiPenalty.PenaltyRequest(Some(RealOr(value, 0.0)), breachNum), serverLocale);
      && FallbackFineText(value, breachNum, browserLocale) == "Nu. " + browserLocale(server.fine)
      && (browserLocale(server.fine) == serverLocale(server.fine) ==>
            FallbackFineText(value, breachNum, browserLocale) == server.formatted)
  {
    FallbackMultiplierAgrees(breachNum);
  }

  // submitGiftDeclaration

  /** The four required inputs of the declaration form, as their `.value` strings. */
  datatype DeclarationForm = DeclarationForm(description: string, value: string, relationship: string, giverName: string)

  /** What the POST to /api/gifts gave: an ok reply carrying a reference, or a failure of any kind. */
  datatype ServerAnswer = Accepted(reference: string) | Unavailable

  datatype SubmitOutcome = Rejected(alert: string) | Submitted(message: string)

  const MissingFieldsAlert: string := "Please fill all required fields marked with *"
  const SuccessPrefix: string := "Your gift declaration has been submitted successfully. Reference: "
  const OfflineSuffix: string := " (Offline Mode)"

  predicate MissingRequired(form: DeclarationForm)
  {
    form.description == "" || form.value == "" || form.relationship == "" || form.giverName == ""
  }

  /**
   * The submit flow. `answer` is what the fetch would give; it is consulted only
   * when validation passes. `year` and `random` are `new Date().getFullYear()` and
   * `Math.random()`, read only on the offline path.
   */
  function SubmitDeclaration(form: DeclarationForm, answer: ServerAnswer, year: nat, random: real): (o: SubmitOutcome)
    requires 0.0 <= random < 1.0
    ensures o.Rejected? <==> MissingRequired(form)
    ensures o.Rejected? ==> o.alert == MissingFieldsAlert
    ensures !MissingRequired(form) && answer.Accepted? ==> o == Submitted(SuccessPrefix + answer.reference)
    ensures !MissingRequired(form) && answer.Unavailable? ==>
              exists ref :: IsRandomReference(ref) && ReferenceYear(ref) == year
                         && o == Submitted(SuccessPrefix + ref + OfflineSuffix)
  {
    if MissingRequired(form) then
      Rejected(MissingFieldsAlert)
    else
      match answer
      case Accepted(reference) => Submitted(SuccessPrefix + reference)
      case Unavailable =>
        var ref := RandomReference(year, random);
        RandomReferenceParses(year, random);
        Submitted(SuccessPrefix + ref + OfflineSuffix)
  }

  /** A rejected form never reaches the server: the outcome is the same whatever the server would have said. */
  lemma RejectionIgnoresServer(form: DeclarationForm, a1: ServerAnswer, a2: ServerAnswer, year: nat, random: real)
    requires 0.0 <= random < 1.0
    requires MissingRequired(form)
    ensures SubmitDeclaration(form, a1, year, random) == SubmitDeclaration(form, a2, year, random)
  {
  }

  // handleRelationshipChange

  /** The "prohibited source" checkbox of the declaration form. */
  class ProhibitedCheckbox {
    var checked: bool

    constructor (checked: bool)
      ensures this.checked == checked
    {
      this.checked := checked;
    }

    /** "contractor" and "business" tick the box, "immediate-relative" and "personal-friend" clear it, anything else leaves it. */
    method OnRelationshipChange(selected: string)
      modifies this
      ensures selected == "contractor" || selected == "business" ==> checked
      ensures selected == "immediate-relative" || selected == "personal-friend" ==> !checked
      ensures selected !in {"contractor", "business", "immediate-relative", "personal-friend"} ==>
                checked == old(checked)
    {
      if selected == "contractor" || selected == "business" {
        checked := true;
      } else if selected == "immediate-relative" || selected == "personal-friend" {
        checked := false;
      }
    }
  }

  // handleFilterClick

  /** A row of the gift table: its `data-status` attribute (None when absent) and its `style.display`. */
  datatype Row = Row(status: Option<string>, display: string)

  /** A filter button: its `data-filter` attribute (None when absent) and its class list. */
  datatype FilterButton = FilterButton(filter: Option<string>, classes: set<string>)

  /** `filterType === 'all' || status === filterType`. */
  predicate Visible(filter: Option<string>, status: Option<string>)
  {
    filter == Some("all") || status == filter
  }

  function ShowOrHide(row: Row, filter: Option<string>): Row
  {
    row.(display := if Visible(filter, row.status) then "" else "none")
  }

  /** The rows after a filter is applied, one by one. */
  function Filtered(rows: seq<Row>, filter: Option<string>): seq<Row>
  {
    if rows == [] then [] else [ShowOrHide(rows[0], filter)] + Filtered(rows[1..], filter)
  }

  /** Row i of the filtered table is row i with its display set from its status alone. */
  lemma {:induction false} FilteredAt(rows: seq<Row>, filter: Option<string>, i: nat)
    requires i < |rows|
    ensures |Filtered(rows, filter)| == |rows|
    ensures Filtered(rows, filter)[i].status == rows[i].status
    ensures Filtered(rows, filter)[i].display == "" <==> Visible(filter, rows[i].status)
    ensures Filtered(rows, filter)[i].display == "none" <==> !Visible(filter, rows[i].status)
    ensures Filtered(rows, filter)[i] == ShowOrHide(rows[i], filter)
  {
    if i > 0 {
      FilteredAt(rows[1..], filter, i - 1);
    } else {
      FilteredLength(rows[1..], filter);
    }
  }

  lemma {:induction false} FilteredLength(rows: seq<Row>, filter: Option<string>)
    ensures |Filtered(rows, filter)| == |rows|
  {
    if rows != [] {
      FilteredLength(rows[1..], filter);
    }
  }

  /** Only the last filter matters: filtering forgets any earlier filter. So applying a filter twice is applying it once. */
  lemma {:induction false} LastFilterWins(rows: seq<Row>, first: Option<string>, second: Option<string>)
    ensures Filtered(Filtered(rows, first), second) == Filtered(rows, second)
  {
    if rows != [] {
      assert Filtered(rows, first)[1..] == Filtered(rows[1..], first);
      LastFilterWins(rows[1..], first, second);
    }
  }

  lemma FilterIdempotent(rows: seq<Row>, filter: Option<string>)
    ensures Filtered(Filtered(rows, filter), filter) == Filtered(rows, filter)
  {
    LastFilterWins(rows, filter, filter);
  }

  /** The row loop of `handleFilterClick`, in place. */
  method FilterRows(rows: array<Row>, filter: Option<string>)
    modifies rows
    ensures rows[..] == Filtered(old(rows[..]), filter)
  {
    var i := 0;
    while i < rows.Length
      invariant 0 <= i <= rows.Length
      invariant forall k :: 0 <= k < i ==> rows[k] == ShowOrHide(old(rows[k]), filter)
      invariant forall k :: i <= k < rows.Length ==> rows[k] == old(rows[k])
    {
      rows[i] := ShowOrHide(rows[i], filter);
      i := i + 1;
    }
    ghost var before := old(rows[..]);
    FilteredLength(before, filter);
    forall k | 0 <= k < rows.Length
      ensures rows[..][k] == Filtered(before, filter)[k]
    {
      FilteredAt(before, filter, k);
    }
  }

  /** Every button loses the primary look, then the clicked one takes it back. */
  method HighlightButton(buttons: array<FilterButton>, clicked: nat)
    requires clicked < buttons.Length
    modifies buttons
    ensures forall j :: 0 <= j < buttons.Length ==> buttons[j].filter == old(buttons[j].filter)
    ensures forall j :: 0 <= j < buttons.Length && j != clicked ==>
              buttons[j].classes == old(buttons[j].classes) - {"btn-primary", "active"} + {"btn-secondary"}
    ensures buttons[clicked].classes == old(buttons[clicked].classes) - {"btn-secondary"} + {"btn-primary", "active"}
    ensures forall j :: 0 <= j < buttons.Length ==> ("active" in buttons[j].classes <==> j == clicked)
  {
    var i := 0;
    while i < buttons.Length
      invariant 0 <= i <= buttons.Length
      invariant forall j :: 0 <= j < i ==>
                  buttons[j] == old(buttons[j]).(classes := old(buttons[j].classes) - {"btn-primary", "active"} + {"btn-secondary"})
      invariant forall j :: i <= j < buttons.Length ==> buttons[j] == old(buttons[j])
    {
      buttons[i] := buttons[i].(classes := buttons[i].classes - {"btn-primary", "active"} + {"btn-secondary"});
      i := i + 1;
    }
    buttons[clicked] := buttons[clicked].(classes := buttons[clicked].classes - {"btn-secondary"} + {"btn-primary", "active"});
  }

  /** `handleFilterClick` for a click on button `clicked`: highlight it, then filter the rows by its `data-filter`. */
  method HandleFilterClick(buttons: array<FilterButton>, clicked: nat, rows: array<Row>)
    requires clicked < buttons.Length
    modifies buttons, rows
    ensures forall j :: 0 <= j < buttons.Length ==> buttons[j].filter == old(buttons[j].filter)
    ensures forall j :: 0 <= j < buttons.Length && j != clicked ==>
              buttons[j].classes == old(buttons[j].classes) - {"btn-primary", "active"} + {"btn-secondary"}
    ensures buttons[clicked].classes == old(buttons[clicked].classes) - {"btn-secondary"} + {"btn-primary", "active"}
    ensures forall j :: 0 <= j < buttons.Length ==> ("active" in buttons[j].classes <==> j == clicked)
    ensures rows[..] == Filtered(old(rows[..]), old(buttons[clicked].filter))
  {
    var filterType := buttons[clicked].filter;
    HighlightButton(buttons, clicked);
    FilterRows(rows, filterType);
  }
}
