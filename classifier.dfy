/** The shipping-method classifier: whether an order goes through the
    pickup-point flow (`isInPostOrder`) and which destination country its
    shipping method implies (`getInPostCountry`). Both look only at the titles
    of the order's shipping lines. */
module Classifier {
  import opened Wrappers
  import opened Text
  import opened Arrays
  import opened Shopify

  const SpainLabel := "InPost z Hiszpanii"
  const PolishPointsLabel := "Punkty odbioru InPost"
  const FranceLabel := "France-Continent (Point Pack et Locker)"
  /** The shorter text `getInPostCountry` tests once a line has matched. */
  const FranceMarker := "France-Continent"

  /** `order.shipping_lines || []`. */
  function Lines(shippingLines: Option<seq<ShippingLine>>): seq<ShippingLine> {
    shippingLines.GetOr([])
  }

  /** `line.title || ""`. */
  function TitleOf(line: ShippingLine): string {
    OrElse(line.title, "")
  }

  /** The test `isInPostOrder` applies to one line: any of the three labels. */
  predicate IsPickupLine(line: ShippingLine) {
    var t := TitleOf(line);
    Contains(t, SpainLabel) || Contains(t, PolishPointsLabel) || Contains(t, FranceLabel)
  }

  /** The test `getInPostCountry` applies to one line: the Spanish or the
      French label only. */
  predicate IsCountryLine(line: ShippingLine) {
    var t := TitleOf(line);
    Contains(t, SpainLabel) || Contains(t, FranceLabel)
  }

  /** `shippingLines.some(...)`. */
  predicate AnyPickupLine(lines: seq<ShippingLine>)
    decreases |lines|
  {
    |lines| > 0 && (IsPickupLine(lines[0]) || AnyPickupLine(lines[1..]))
  }

  /** `isInPostOrder(order)`. */
  predicate IsInPostOrder(shippingLines: Option<seq<ShippingLine>>) {
    AnyPickupLine(Lines(shippingLines))
  }

  /** `isInPostOrder` holds exactly when some line's title carries one of the
      three labels; no lines at all (or no titles) give false. */
  lemma {:induction false} IsInPostOrderIff(shippingLines: Option<seq<ShippingLine>>)
    ensures IsInPostOrder(shippingLines)
        <==> exists i :: 0 <= i < |Lines(shippingLines)| && IsPickupLine(Lines(shippingLines)[i])
  {
    AnyPickupLineIff(Lines(shippingLines));
  }

  lemma {:induction false} AnyPickupLineIff(lines: seq<ShippingLine>)
    ensures AnyPickupLine(lines) <==> exists i :: 0 <= i < |lines| && IsPickupLine(lines[i])
    decreases |lines|
  {
    if |lines| > 0 {
      AnyPickupLineIff(lines[1..]);
      assert forall i :: 0 < i < |lines| ==> lines[i] == lines[1..][i - 1];
      if AnyPickupLine(lines[1..]) {
        var i :| 0 <= i < |lines[1..]| && IsPickupLine(lines[1..][i]);
        assert IsPickupLine(lines[i + 1]);
      }
    }
  }

  /** `getInPostCountry(order)`: the first line with the Spanish or the French
      label decides; "PL" when its title has the Spanish label, else "FR" when
      it has "France-Continent"; null when no line has either label. */
  function InPostCountry(shippingLines: Option<seq<ShippingLine>>): (c: Option<string>)
    ensures c.Some? ==> c.value == "PL" || c.value == "FR"
  {
    var lines := Lines(shippingLines);
    match FirstIndex(lines, IsCountryLine)
    case None => None
    case Some(i) =>
      var t := TitleOf(lines[i]);
      if Contains(t, SpainLabel) then Some("PL")
      else if Contains(t, FranceMarker) then Some("FR")
      else None
  }

  /** `getInPostCountry` returns null exactly when no line carries the
      Spanish or the French label. */
  lemma InPostCountryNone(shippingLines: Option<seq<ShippingLine>>)
    ensures var lines := Lines(shippingLines);
      (InPostCountry(shippingLines) == None
       <==> forall j :: 0 <= j < |lines| ==> !IsCountryLine(lines[j]))
  {
    var lines := Lines(shippingLines);
    var found := FirstIndex(lines, IsCountryLine);
    if found.Some? {
      FirstCountryLineDecides(lines[found.value]);
    }
  }

  /** The line `find` picks always yields a country: its title has the
      Spanish label, or else it has the French one and with it
      "France-Continent". */
  lemma FirstCountryLineDecides(line: ShippingLine)
    requires IsCountryLine(line)
    ensures Contains(TitleOf(line), SpainLabel) || Contains(TitleOf(line), FranceMarker)
  {
    var t := TitleOf(line);
    if !Contains(t, SpainLabel) {
      FranceMarkerPrefix();
      ContainsPrefixOf(t, FranceLabel, FranceMarker);
    }
  }

  lemma FranceMarkerPrefix()
    ensures IsPrefix(FranceMarker, FranceLabel)
  {
  }

  /** Otherwise the first such line decides: "PL" exactly when its title has
      the Spanish label (even when it has the French one too), and "FR"
      exactly when it does not. */
  lemma InPostCountryFirstLine(shippingLines: Option<seq<ShippingLine>>, i: nat)
    requires IsFirstAt(Lines(shippingLines), IsCountryLine, i)
    ensures var t := TitleOf(Lines(shippingLines)[i]);
      && (Contains(t, SpainLabel) ==> InPostCountry(shippingLines) == Some("PL"))
      && (!Contains(t, SpainLabel) ==> InPostCountry(shippingLines) == Some("FR"))
  {
    var lines := Lines(shippingLines);
    var found := FirstIndex(lines, IsCountryLine);
    FirstAtUnique(lines, IsCountryLine, i, found.value);
    FirstCountryLineDecides(lines[i]);
  }

  /** A country is only ever inferred for an order that `isInPostOrder`
      accepts. */
  lemma CountryImpliesInPost(shippingLines: Option<seq<ShippingLine>>)
    requires InPostCountry(shippingLines).Some?
    ensures IsInPostOrder(shippingLines)
  {
    var lines := Lines(shippingLines);
    var i := FirstIndex(lines, IsCountryLine).value;
    assert IsPickupLine(lines[i]);
    AnyPickupLineIff(lines);
  }

  /** Lines whose only label is "Punkty odbioru InPost" pass the gate but yield
      no country. */
  lemma {:induction false} PolishPointsOnlyGivesNoCountry(shippingLines: Option<seq<ShippingLine>>)
    requires exists i :: 0 <= i < |Lines(shippingLines)| && Contains(TitleOf(Lines(shippingLines)[i]), PolishPointsLabel)
    requires forall i :: 0 <= i < |Lines(shippingLines)| ==> !IsCountryLine(Lines(shippingLines)[i])
    ensures IsInPostOrder(shippingLines)
    ensures InPostCountry(shippingLines) == None
  {
    AnyPickupLineIff(Lines(shippingLines));
  }

  /** A line titled "Punkty odbioru InPost" is a pickup-point line without a
      country label. */
  lemma PolishPointsLine(line: ShippingLine)
    requires line.title == Some(PolishPointsLabel)
    ensures IsPickupLine(line) && !IsCountryLine(line)
  {
    assert TitleOf(line) == PolishPointsLabel;
    PolishPointsContainsItself();
    PolishPointsNotSpain();
    PolishPointsNotFrance();
  }

  lemma PolishPointsContainsItself()
    ensures Contains(PolishPointsLabel, PolishPointsLabel)
  {
    assert IsPrefix(PolishPointsLabel, PolishPointsLabel);
  }

  lemma PolishPointsNotSpain()
    ensures !Contains(PolishPointsLabel, SpainLabel)
  {
    NotContainsBefore(PolishPointsLabel, SpainLabel, 4);
  }

  lemma PolishPointsNotFrance()
    ensures !Contains(PolishPointsLabel, FranceLabel)
  {
    NotContainsBefore(PolishPointsLabel, FranceLabel, 0);
  }

  /** The single line "Punkty odbioru InPost". */
  lemma PolishPointsExample()
    ensures var lines := Some([ShippingLine(Some(PolishPointsLabel))]);
      IsInPostOrder(lines) && InPostCountry(lines) == None
  {
    var line := ShippingLine(Some(PolishPointsLabel));
    PolishPointsLine(line);
    var lines := [line];
    assert FirstIndex(lines, IsCountryLine) == None;
    assert AnyPickupLine(lines);
  }

  /** A line titled "France-Continent (Point Pack et Locker)" carries a
      country label and not the Spanish one. */
  lemma FranceLine(line: ShippingLine)
    requires line.title == Some(FranceLabel)
    ensures IsCountryLine(line) && !Contains(TitleOf(line), SpainLabel)
  {
    assert TitleOf(line) == FranceLabel;
    FranceContainsItself();
    FranceNotSpain();
  }

  lemma FranceContainsItself()
    ensures Contains(FranceLabel, FranceLabel)
  {
    assert IsPrefix(FranceLabel, FranceLabel);
  }

  lemma FranceNotSpain()
    ensures !Contains(FranceLabel, SpainLabel)
  {
    NotContainsBefore(FranceLabel, SpainLabel, |FranceLabel| - |SpainLabel| + 1);
  }

  /** The single line "France-Continent (Point Pack et Locker)" gives "FR". */
  lemma FranceExample()
    ensures var lines := Some([ShippingLine(Some(FranceLabel))]);
      IsInPostOrder(lines) && InPostCountry(lines) == Some("FR")
  {
    var line := ShippingLine(Some(FranceLabel));
    FranceLine(line);
    assert IsFirstAt([line], IsCountryLine, 0);
    InPostCountryFirstLine(Some([line]), 0);
    CountryImpliesInPost(Some([line]));
  }
}
