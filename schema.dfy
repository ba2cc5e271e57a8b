/**
 * The form schema: the ordered field definitions, the form name and the
 * retrieval field, as the Form Builder page reads and writes them in the
 * option store (options `lv_form_fields`, `lv_form_name`, `lv_retrieval_field`).
 */
module Schema {
  import opened Php

  /**
   * One field definition. `caption` is the field's label (the key under which
   * entries store its value); `kind` is its type as submitted ("text",
   * "number", "date", "file", "email", "url", or any other posted string).
   */
  datatype Field = Field(caption: string, kind: string, required: bool)

  predicate IsFile(f: Field) {
    f.kind == "file"
  }

  /** The retrieval field the free tier is pinned to. */
  const LicenseNumber := "License Number"

  /** The built-in field set: five required text fields. */
  function DefaultFields(): (fs: seq<Field>)
    ensures |fs| == 5
    ensures forall i :: 0 <= i < |fs| ==> fs[i].kind == "text" && fs[i].required
    ensures fs[4].caption == LicenseNumber
  {
    [ Field("Name", "text", true),
      Field("Father Name", "text", true),
      Field("City", "text", true),
      Field("Country", "text", true),
      Field(LicenseNumber, "text", true) ]
  }

  predicate UniqueCaptions(fields: seq<Field>) {
    forall i, j :: 0 <= i < j < |fields| ==> fields[i].caption != fields[j].caption
  }

  // ---------------------------------------------------------------------------
  // Building field definitions from the Form Builder's parallel arrays

  /** Cell i of a posted array; a missing cell reads as null, which is empty. */
  function Cell(xs: seq<string>, i: int): string {
    if 0 <= i < |xs| then xs[i] else ""
  }

  /** Row i becomes a field when both its label and its type are non-empty. */
  predicate RowKept(captions: seq<string>, kinds: seq<string>, i: int) {
    !Empty(Cell(captions, i)) && !Empty(Cell(kinds, i))
  }

  /** The field made from row i: `required` iff i is among the ticked rows. */
  function RowField(captions: seq<string>, kinds: seq<string>, required: seq<int>, i: int): Field {
    Field(Cell(captions, i), Cell(kinds, i), i in required)
  }

  /** The fields made from rows 0 .. n-1, skipping incomplete rows. */
  function Rows(captions: seq<string>, kinds: seq<string>, required: seq<int>, n: nat): (fs: seq<Field>)
    requires n <= |captions|
    ensures |fs| <= n
    ensures forall k :: 0 <= k < |fs| ==> !Empty(fs[k].caption) && !Empty(fs[k].kind)
  {
    if n == 0 then []
    else
      Rows(captions, kinds, required, n - 1)
      + (if RowKept(captions, kinds, n - 1) then [RowField(captions, kinds, required, n - 1)] else [])
  }

  /** The row numbers, among 0 .. n-1, that produce a field, in increasing order. */
  function Origins(captions: seq<string>, kinds: seq<string>, n: nat): (rs: seq<nat>)
    ensures forall k :: 0 <= k < |rs| ==> rs[k] < n && RowKept(captions, kinds, rs[k])
    ensures forall i :: 0 <= i < n && RowKept(captions, kinds, i) ==> i in rs
    ensures forall k, m :: 0 <= k < m < |rs| ==> rs[k] < rs[m]
  {
    if n == 0 then []
    else Origins(captions, kinds, n - 1) + (if RowKept(captions, kinds, n - 1) then [n - 1] else [])
  }

  /**
   * The saved field list: `field_labels`, `field_types` and `field_required`
   * (row numbers) turned into definitions. Nothing is saved but an empty list
   * when either array is empty.
   */
  function BuildFields(captions: seq<string>, kinds: seq<string>, required: seq<int>): (fs: seq<Field>)
    ensures forall f :: f in fs ==> !Empty(f.caption) && !Empty(f.kind)
    ensures |fs| <= |captions|
  {
    if captions != [] && kinds != [] then Rows(captions, kinds, required, |captions|) else []
  }

  /**
   * The saved list holds exactly the complete rows, in input order: field k
   * comes from the k-th complete row, with `required` true iff that row's
   * number was ticked.
   */
  lemma {:induction false} RowsFromOrigins(captions: seq<string>, kinds: seq<string>, required: seq<int>, n: nat)
    requires n <= |captions|
    ensures |Rows(captions, kinds, required, n)| == |Origins(captions, kinds, n)|
    ensures forall k :: 0 <= k < |Origins(captions, kinds, n)| ==>
      Rows(captions, kinds, required, n)[k] == RowField(captions, kinds, required, Origins(captions, kinds, n)[k])
  {
    if n > 0 {
      RowsFromOrigins(captions, kinds, required, n - 1);
    }
  }

  lemma BuildFieldsExact(captions: seq<string>, kinds: seq<string>, required: seq<int>)
    ensures captions != [] && kinds != [] ==>
      var fs, rs := BuildFields(captions, kinds, required), Origins(captions, kinds, |captions|);
      && |fs| == |rs|
      && (forall k :: 0 <= k < |fs| ==> fs[k] == RowField(captions, kinds, required, rs[k]))
      && (forall i :: 0 <= i < |captions| ==> (RowKept(captions, kinds, i) <==> i in rs))
    ensures captions == [] || kinds == [] ==> BuildFields(captions, kinds, required) == []
  {
    if captions != [] && kinds != [] {
      RowsFromOrigins(captions, kinds, required, |captions|);
    }
  }

  // ---------------------------------------------------------------------------
  // The Form Builder page's option handling

  /** The schema options as stored; None is an option that was never written. */
  class FormOptions {
    var fields: Option<seq<Field>>
    var formName: Option<string>
    var retrievalField: Option<string>

    /** An option store in which none of the schema options exists yet. */
    constructor ()
      ensures fields == None && formName == None && retrievalField == None
    {
      fields := None;
      formName := None;
      retrievalField := None;
    }

    /**
     * The plugin's activation hook: default fields and the "License Number"
     * retrieval field overwrite whatever was stored; the form name is set only
     * when it is missing or falsy.
     */
    method ActivationHook()
      modifies this
      ensures fields == Some(DefaultFields())
      ensures retrievalField == Some(LicenseNumber)
      ensures formName == if old(formName).None? || Empty(old(formName).value) then Some("License Verification") else old(formName)
    {
      fields := Some(DefaultFields());
      retrievalField := Some(LicenseNumber);
      if formName.None? || Empty(formName.value) {
        formName := Some("License Verification");
      }
    }

    /**
     * The field list as the Form Builder loads it: a missing option reads as
     * the defaults, and a stored empty list is replaced by the defaults.
     */
    method LoadFields() returns (fs: seq<Field>)
      modifies this
      ensures fs != []
      ensures fs == if old(fields).GetOr(DefaultFields()) == [] then DefaultFields() else old(fields).GetOr(DefaultFields())
      ensures fields == if old(fields) == Some([]) then Some(DefaultFields()) else old(fields)
      ensures formName == old(formName) && retrievalField == old(retrievalField)
    {
      fs := fields.GetOr(DefaultFields());
      if fs == [] {
        fields := Some(DefaultFields());
        fs := DefaultFields();
      }
    }

    /** Saving the form name: an empty name is ignored. */
    method SaveFormName(name: string) returns (saved: bool)
      modifies this
      ensures saved == !Empty(name)
      ensures formName == if saved then Some(name) else old(formName)
      ensures fields == old(fields) && retrievalField == old(retrievalField)
    {
      saved := !Empty(name);
      if saved {
        formName := Some(name);
      }
    }

    /** Saving the field rows: premium only; a free-tier request changes nothing. */
    method SaveFields(premium: bool, captions: seq<string>, kinds: seq<string>, required: seq<int>)
      modifies this
      ensures fields == if premium then Some(BuildFields(captions, kinds, required)) else old(fields)
      ensures formName == old(formName) && retrievalField == old(retrievalField)
    {
      if premium {
        fields := Some(BuildFields(captions, kinds, required));
      }
    }

    /**
     * Saving the retrieval field. The free tier may only choose
     * "License Number"; any other value is rejected and nothing is written.
     */
    method SaveRetrievalField(premium: bool, choice: string) returns (accepted: bool)
      modifies this
      ensures accepted == (premium || choice == LicenseNumber)
      ensures retrievalField == if accepted then Some(choice) else old(retrievalField)
      ensures fields == old(fields) && formName == old(formName)
    {
      accepted := premium || choice == LicenseNumber;
      if accepted {
        retrievalField := Some(choice);
      }
    }

    /**
     * The retrieval field as the Form Builder reads it (default "License
     * Number"). On the free tier a stored value other than "License Number"
     * is overwritten with it.
     */
    method ReadRetrievalField(premium: bool) returns (r: string)
      modifies this
      ensures !premium ==> r == LicenseNumber
      ensures premium ==> r == old(retrievalField).GetOr(LicenseNumber) && retrievalField == old(retrievalField)
      ensures !premium ==> retrievalField == if old(retrievalField).GetOr(LicenseNumber) != LicenseNumber then Some(LicenseNumber) else old(retrievalField)
      ensures fields == old(fields) && formName == old(formName)
    {
      r := retrievalField.GetOr(LicenseNumber);
      if !premium && r != LicenseNumber {
        retrievalField := Some(LicenseNumber);
        r := LicenseNumber;
      }
    }
  }

  /**
   * A free-tier attempt to choose another retrieval field leaves the page
   * showing "License Number", whatever was stored before.
   */
  method FreeTierRetrievalPinned(store: FormOptions, choice: string) returns (shown: string)
    modifies store
    ensures shown == LicenseNumber
    ensures choice != LicenseNumber ==>
      store.retrievalField == if old(store.retrievalField).GetOr(LicenseNumber) != LicenseNumber then Some(LicenseNumber) else old(store.retrievalField)
  {
    var accepted := store.SaveRetrievalField(false, choice);
    assert choice != LicenseNumber ==> !accepted;
    shown := store.ReadRetrievalField(false);
  }
}
