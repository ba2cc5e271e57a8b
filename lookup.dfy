/**
 * The public verification form (`[license_verification]` shortcode): the
 * ordered preconditions, the optional city gate, the first-match lookup of
 * the submitted value, and the rows and photo shown for a match.
 */
module Lookup {
  import opened Php
  import opened Schema
  import opened Entries
  import opened Cities

  /** The options the shortcode reads; `None` is an option never written. */
  datatype Settings = Settings(
    fields: Option<seq<Field>>,
    retrieval: Option<string>,
    active: Option<string>,
    showCity: Option<string>,
    cities: Option<seq<City>>,
    template: Option<string>,
    entries: Option<seq<Entry>>)

  /** What the city gate did on this request; NotAsked when the gate does not apply. */
  datatype Gate = NotAsked | AskCity | CityRejected(city: string) | CityAccepted(city: string)

  datatype Row = Row(caption: string, value: string)

  /** The result card: the table rows and, when there is one, the photo URL. */
  datatype Card = Card(rows: seq<Row>, photo: Option<string>)

  /** A match (with its card for the two templates that draw one), or no match. */
  datatype Answer = Found(entry: Entry, card: Option<Card>) | NotFound(field: string, value: string)

  /** The page the shortcode renders. */
  datatype Page =
    | Disabled
    | NotConfigured
    | BadRetrievalField
    | Rendered(gate: Gate, form: bool, answer: Option<Answer>)

  /** The stored settings with the shortcode's own defaults. */
  function FieldsOf(s: Settings): seq<Field> { s.fields.GetOr([]) }
  function RetrievalOf(s: Settings): string { s.retrieval.GetOr("CNIC") }
  function ShowCityOf(s: Settings): string { s.showCity.GetOr("no") }
  function CitiesOf(s: Settings): seq<City> { s.cities.GetOr([]) }

  /** The retrieval field must name a field of the form that is not a file field. */
  function RetrievalFieldOk(fields: seq<Field>, caption: string): (ok: bool)
    ensures ok <==> exists i :: 0 <= i < |fields| && fields[i].caption == caption && !IsFile(fields[i])
  {
    if fields == [] then false
    else (fields[0].caption == caption && !IsFile(fields[0])) || RetrievalFieldOk(fields[1..], caption)
  }

  /** An entry matches when it holds the retrieval field with exactly the submitted value. */
  predicate Matches(e: Entry, caption: string, value: string) {
    caption in e && e[caption] == value
  }

  /** The index of the first matching entry; None when no entry matches. */
  function FirstMatch(entries: seq<Entry>, caption: string, value: string): (m: Option<nat>)
    ensures m.Some? ==> m.value < |entries| && Matches(entries[m.value], caption, value)
    ensures m.Some? ==> forall j :: 0 <= j < m.value ==> !Matches(entries[j], caption, value)
    ensures m.None? ==> forall j :: 0 <= j < |entries| ==> !Matches(entries[j], caption, value)
  {
    if entries == [] then None
    else if Matches(entries[0], caption, value) then Some(0)
    else
      match FirstMatch(entries[1..], caption, value)
      case None => None
      case Some(k) => Some(k + 1)
  }

  /** A stored value as the card shows it: a falsy value ("" or "0") shows as "-". */
  function Shown(v: string): string {
    if Empty(v) then "-" else v
  }

  /** A field gets a row on the card when the entry holds it and it is not a file field. */
  predicate RowShown(f: Field, e: Entry) {
    f.caption in e && !IsFile(f)
  }

  /** The card's table: one row per field the entry holds that is not a file field, in field order. */
  function DisplayRows(fields: seq<Field>, e: Entry): (rows: seq<Row>)
    ensures |rows| <= |fields|
    ensures forall r :: r in rows ==> r.caption in e && r.value == Shown(e[r.caption]) && !Empty(r.value)
    ensures forall i :: 0 <= i < |fields| && RowShown(fields[i], e) ==> Row(fields[i].caption, Shown(e[fields[i].caption])) in rows
    ensures forall r :: r in rows ==> exists i :: 0 <= i < |fields| && fields[i].caption == r.caption && RowShown(fields[i], e)
  {
    if fields == [] then []
    else
      var n := |fields| - 1;
      var f := fields[n];
      assert forall i :: 0 <= i < n ==> fields[..n][i] == fields[i];
      DisplayRows(fields[..n], e) + (if RowShown(f, e) then [Row(f.caption, Shown(e[f.caption]))] else [])
  }

  /** The positions, in increasing order, of exactly the fields that get a row. */
  function ShownPositions(fields: seq<Field>, e: Entry): (idx: seq<nat>)
    ensures forall k :: 0 <= k < |idx| ==> idx[k] < |fields| && RowShown(fields[idx[k]], e)
    ensures forall i :: 0 <= i < |fields| && RowShown(fields[i], e) ==> i in idx
    ensures forall k, m :: 0 <= k < m < |idx| ==> idx[k] < idx[m]
  {
    if fields == [] then []
    else
      var n := |fields| - 1;
      var front := ShownPositions(fields[..n], e);
      assert forall k :: 0 <= k < |front| ==> fields[..n][front[k]] == fields[front[k]];
      front + (if RowShown(fields[n], e) then [n] else [])
  }

  /**
   * The table is exactly one row per shown field, in field order: row k is
   * the k-th field that gets a row, with its label and displayed value.
   */
  lemma {:induction false} DisplayRowsExact(fields: seq<Field>, e: Entry)
    ensures |DisplayRows(fields, e)| == |ShownPositions(fields, e)|
    ensures forall k :: 0 <= k < |ShownPositions(fields, e)| ==>
      var f := fields[ShownPositions(fields, e)[k]];
      DisplayRows(fields, e)[k] == Row(f.caption, Shown(e[f.caption]))
  {
    if fields != [] {
      var n := |fields| - 1;
      DisplayRowsExact(fields[..n], e);
      var front := ShownPositions(fields[..n], e);
      assert forall k :: 0 <= k < |front| ==> fields[..n][front[k]] == fields[front[k]];
    }
  }

  /** The index of the first file field, if the form has one. */
  function FirstFile(fields: seq<Field>): (m: Option<nat>)
    ensures m.Some? ==> m.value < |fields| && IsFile(fields[m.value])
    ensures m.Some? ==> forall j :: 0 <= j < m.value ==> !IsFile(fields[j])
    ensures m.None? ==> forall j :: 0 <= j < |fields| ==> !IsFile(fields[j])
  {
    if fields == [] then None
    else if IsFile(fields[0]) then Some(0)
    else
      match FirstFile(fields[1..])
      case None => None
      case Some(k) => Some(k + 1)
  }

  /**
   * The photo: the entry's value under the first file field, shown only when
   * that field's label and the stored value are both non-empty.
   */
  function Photo(fields: seq<Field>, e: Entry): (p: Option<string>)
    ensures p.Some? <==> (FirstFile(fields).Some? && var c := fields[FirstFile(fields).value].caption;
      !Empty(c) && c in e && !Empty(e[c]))
    ensures p.Some? ==> p.value == e[fields[FirstFile(fields).value].caption] && !Empty(p.value)
  {
    match FirstFile(fields)
    case None => None
    case Some(i) =>
      var c := fields[i].caption;
      if !Empty(c) && c in e && !Empty(e[c]) then Some(e[c]) else None
  }

  /**
   * The city gate, active when city eligibility is switched on, the city list
   * is not empty and no eligible city is in the session yet. Returns the new
   * session value.
   */
  function CityGate(show: string, cities: seq<City>, session: Option<string>, post: map<string, string>): (g: (Gate, Option<string>))
    ensures g.1 != session ==> g.1.Some? && g.0 == CityAccepted(g.1.value)
    ensures g.0.CityAccepted? <==> (show == "yes" && cities != [] && session.None? && "lv_check_city" in post
      && Eligible(cities, PostValue(post, "city_name")))
    ensures g.0.CityAccepted? ==> g.1 == Some(g.0.city) && Eligible(cities, g.0.city)
    ensures g.0.CityRejected? ==> !Eligible(cities, g.0.city) && g.1 == session
  {
    if show == "yes" && cities != [] && session.None? then
      if "lv_check_city" !in post then (AskCity, session)
      else
        var city := PostValue(post, "city_name");
        if Eligible(cities, city) then (CityAccepted(city), Some(city)) else (CityRejected(city), session)
    else (NotAsked, session)
  }

  /** The lookup of the submitted value, read from the input named after the retrieval field. */
  function LookUp(fields: seq<Field>, retrieval: string, template: string, entries: seq<Entry>, post: map<string, string>): Answer {
    var value := PostValue(post, FieldKey(retrieval));
    match FirstMatch(entries, retrieval, value)
    case None => NotFound(retrieval, value)
    case Some(i) =>
      var e := entries[i];
      Found(e, if template == "template1" || template == "template2" then Some(Card(DisplayRows(fields, e), Photo(fields, e))) else None)
  }

  /**
   * One rendering of the shortcode with the current session and post data;
   * returns the page and the new session value.
   */
  function Shortcode(s: Settings, session: Option<string>, post: map<string, string>): (out: (Page, Option<string>))
    ensures out.0 == Disabled <==> s.active.GetOr("yes") != "yes"
    ensures out.0 == NotConfigured <==> s.active.GetOr("yes") == "yes" && FieldsOf(s) == []
    ensures out.0 == BadRetrievalField <==> (s.active.GetOr("yes") == "yes" && FieldsOf(s) != []
      && !RetrievalFieldOk(FieldsOf(s), RetrievalOf(s)))
    ensures !out.0.Rendered? ==> out.1 == session
    ensures out.0.Rendered? ==> (out.0.form <==> ShowCityOf(s) != "yes" || out.1.Some?)
    ensures out.0.Rendered? ==> (out.0.answer.Some? <==> out.0.form && "lv_verify" in post)
  {
    var fields := FieldsOf(s);
    var retrieval := RetrievalOf(s);
    var show := ShowCityOf(s);
    if s.active.GetOr("yes") != "yes" then (Disabled, session)
    else if fields == [] then (NotConfigured, session)
    else if !RetrievalFieldOk(fields, retrieval) then (BadRetrievalField, session)
    else
      var (gate, session') := CityGate(show, CitiesOf(s), session, post);
      var form := (show == "yes" && session'.Some?) || show != "yes";
      var answer := if form && "lv_verify" in post
        then Some(LookUp(fields, retrieval, s.template.GetOr("template1"), s.entries.GetOr([]), post))
        else None;
      (Rendered(gate, form, answer), session')
  }

  // ---------------------------------------------------------------------------
  // Properties of the public form

  /**
   * A reported match is the first stored entry whose retrieval field equals
   * the value posted under that field's input name; "no match" means no
   * stored entry has it.
   */
  lemma LookupSound(s: Settings, session: Option<string>, post: map<string, string>)
    requires Shortcode(s, session, post).0.Rendered? && Shortcode(s, session, post).0.answer.Some?
    ensures var es, r := s.entries.GetOr([]), RetrievalOf(s);
      var value := PostValue(post, FieldKey(r));
      match Shortcode(s, session, post).0.answer.value
      case Found(e, _) =>
        exists i :: 0 <= i < |es| && es[i] == e && Matches(e, r, value)
          && forall j :: 0 <= j < i ==> !Matches(es[j], r, value)
      case NotFound(field, v) =>
        field == r && v == value && forall j :: 0 <= j < |es| ==> !Matches(es[j], r, value)
  {
    var es, r := s.entries.GetOr([]), RetrievalOf(s);
    var value := PostValue(post, FieldKey(r));
    var m := FirstMatch(es, r, value);
    if m.Some? {
      assert es[m.value] == Shortcode(s, session, post).0.answer.value.entry;
    }
  }

  /**
   * With city eligibility switched on, the lookup form is only ever shown to
   * a session that holds a city, and a city enters the session only when
   * the list marks it eligible.
   */
  lemma GateGuardsForm(s: Settings, session: Option<string>, post: map<string, string>)
    requires ShowCityOf(s) == "yes"
    ensures var (page, session') := Shortcode(s, session, post);
      page.Rendered? && page.form ==> session'.Some? && (session' == session || Eligible(CitiesOf(s), session'.value))
    ensures var (page, session') := Shortcode(s, session, post);
      session' != session ==> session.None? && Eligible(CitiesOf(s), session'.value)
  {
  }

  /**
   * With city eligibility switched on but no cities stored, a visitor without
   * a session city sees neither the city form nor the lookup form.
   */
  lemma EmptyCityListHidesForm(s: Settings, post: map<string, string>)
    requires s.active.GetOr("yes") == "yes" && FieldsOf(s) != [] && RetrievalFieldOk(FieldsOf(s), RetrievalOf(s))
    requires ShowCityOf(s) == "yes" && CitiesOf(s) == []
    ensures Shortcode(s, None, post) == (Rendered(NotAsked, false, None), None)
  {
  }

  /**
   * The shortcode's own defaults differ from the Form Builder's: with no
   * field option stored the form is "not configured", and with no retrieval
   * option stored it looks for a "CNIC" field, which the built-in fields lack.
   */
  lemma ShortcodeDefaults(s: Settings, session: Option<string>, post: map<string, string>)
    requires s.active.GetOr("yes") == "yes"
    ensures s.fields.None? ==> Shortcode(s, session, post).0 == NotConfigured
    ensures s.fields == Some(DefaultFields()) && s.retrieval.None? ==> Shortcode(s, session, post).0 == BadRetrievalField
  {
  }

  /** The lookup compares exact strings: "0" and "" are distinct values even though both are falsy. */
  lemma ExactComparison(e: Entry, caption: string)
    requires caption in e && e[caption] == "0"
    ensures Matches(e, caption, "0") && !Matches(e, caption, "")
    ensures Shown(e[caption]) == "-"
  {
  }
}
