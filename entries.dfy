/**
 * The entry store (option `lv_entries`): an ordered list of records, each a
 * map from field label to value, whose identity is the position in the list.
 * Models the Entries page's add, bulk-delete, delete and edit handlers.
 */
module Entries {
  import opened Php
  import opened Schema
  import opened Positions

  /** One record: field label to value (a file field's value is its URL). */
  type Entry = map<string, string>

  /** The outcome of one file input: uploaded to a URL, or the upload's error. */
  datatype Upload = Uploaded(url: string) | UploadFailed(message: string)

  /** The free tier's cap on the number of entries. */
  const FreeEntryLimit := 10

  /**
   * The fields the Entries page works with: the stored schema (read default:
   * the built-in fields) on the premium tier, and always the built-in fields
   * on the free tier, whatever is stored.
   */
  function EntryFields(premium: bool, stored: Option<seq<Field>>): (fs: seq<Field>)
    ensures !premium ==> fs == DefaultFields()
    ensures premium ==> fs == stored.GetOr(DefaultFields())
  {
    if premium then stored.GetOr(DefaultFields()) else DefaultFields()
  }

  // ---------------------------------------------------------------------------
  // Adding an entry

  datatype FieldError = Required(caption: string) | UploadError(caption: string, message: string)

  /** What one field contributes to a new entry: a value, or an error. */
  datatype Contribution = Value(value: string) | Error(error: FieldError)

  /**
   * One field of the add form. File inputs are read only on the premium
   * tier; every other field reads its posted text, and a required one fails
   * when that text is empty in PHP's sense ("" or "0").
   */
  function AddField(f: Field, premium: bool, post: map<string, string>, files: map<string, Upload>): Contribution {
    var name := FieldKey(f.caption);
    if IsFile(f) && premium then
      if name in files then
        match files[name]
        case Uploaded(url) => Value(url)
        case UploadFailed(message) => Error(UploadError(f.caption, message))
      else if f.required then Error(Required(f.caption))
      else Value("")
    else
      var v := PostValue(post, name);
      if f.required && Empty(v) then Error(Required(f.caption)) else Value(v)
  }

  /** The entry and the error list built by the add handler's loop over `fields`. */
  function Collect(fields: seq<Field>, premium: bool, post: map<string, string>, files: map<string, Upload>): (Entry, seq<FieldError>)
  {
    if fields == [] then (map[], [])
    else
      var (e, errors) := Collect(fields[..|fields| - 1], premium, post, files);
      var f := fields[|fields| - 1];
      match AddField(f, premium, post, files)
      case Value(v) => (e[f.caption := v], errors)
      case Error(err) => (e, errors + [err])
  }

  /** The add is rejected exactly when some field fails. */
  lemma {:induction false} CollectErrors(fields: seq<Field>, premium: bool, post: map<string, string>, files: map<string, Upload>)
    ensures Collect(fields, premium, post, files).1 == [] <==>
      forall i :: 0 <= i < |fields| ==> AddField(fields[i], premium, post, files).Value?
  {
    if fields != [] {
      var front := fields[..|fields| - 1];
      CollectErrors(front, premium, post, files);
      assert forall i :: 0 <= i < |front| ==> front[i] == fields[i];
    }
  }

  /** Every error is the error of some failing field. */
  lemma {:induction false} CollectErrorsFromFields(fields: seq<Field>, premium: bool, post: map<string, string>, files: map<string, Upload>)
    ensures forall err :: err in Collect(fields, premium, post, files).1 ==>
      exists i :: 0 <= i < |fields| && AddField(fields[i], premium, post, files) == Error(err)
  {
    if fields != [] {
      var front := fields[..|fields| - 1];
      CollectErrorsFromFields(front, premium, post, files);
      assert forall i :: 0 <= i < |front| ==> front[i] == fields[i];
    }
  }

  /** A successful add stores a value under every field label and nothing else. */
  lemma {:induction false} CollectKeys(fields: seq<Field>, premium: bool, post: map<string, string>, files: map<string, Upload>)
    ensures Collect(fields, premium, post, files).0.Keys <= set f | f in fields :: f.caption
    ensures Collect(fields, premium, post, files).1 == [] ==>
      Collect(fields, premium, post, files).0.Keys == set f | f in fields :: f.caption
  {
    if fields != [] {
      var front := fields[..|fields| - 1];
      CollectKeys(front, premium, post, files);
      assert fields == front + [fields[|fields| - 1]];
    }
  }

  /** With distinct labels, each field's value is what that field contributed. */
  lemma {:induction false} CollectValues(fields: seq<Field>, premium: bool, post: map<string, string>, files: map<string, Upload>, i: int)
    requires UniqueCaptions(fields) && 0 <= i < |fields|
    requires AddField(fields[i], premium, post, files).Value?
    ensures fields[i].caption in Collect(fields, premium, post, files).0
    ensures Collect(fields, premium, post, files).0[fields[i].caption] == AddField(fields[i], premium, post, files).value
  {
    var front := fields[..|fields| - 1];
    if i < |fields| - 1 {
      assert UniqueCaptions(front);
      CollectValues(front, premium, post, files, i);
    }
  }

  /** A required text field posted empty (or "0") always blocks the add. */
  lemma EmptyRequiredBlocks(fields: seq<Field>, premium: bool, post: map<string, string>, files: map<string, Upload>, i: int)
    requires 0 <= i < |fields| && fields[i].required && !(IsFile(fields[i]) && premium)
    requires Empty(PostValue(post, FieldKey(fields[i].caption)))
    ensures Collect(fields, premium, post, files).1 != []
  {
    CollectErrors(fields, premium, post, files);
  }

  /** Off the premium tier no upload is read: the added entry does not depend on `files`. */
  lemma {:induction false} CollectFreeIgnoresFiles(fields: seq<Field>, post: map<string, string>, files: map<string, Upload>, files': map<string, Upload>)
    ensures Collect(fields, false, post, files) == Collect(fields, false, post, files')
  {
    if fields != [] {
      CollectFreeIgnoresFiles(fields[..|fields| - 1], post, files, files');
    }
  }

  /**
   * On the free tier the stored schema is ignored: a successful add stores
   * exactly the five built-in labels, whatever fields the Form Builder saved.
   */
  lemma FreeTierStoresDefaultLabels(stored: Option<seq<Field>>, stored': Option<seq<Field>>, post: map<string, string>, files: map<string, Upload>)
    ensures Collect(EntryFields(false, stored), false, post, files) == Collect(EntryFields(false, stored'), false, post, files)
    ensures Collect(EntryFields(false, stored), false, post, files).1 == [] ==>
      Collect(EntryFields(false, stored), false, post, files).0.Keys == {"Name", "Father Name", "City", "Country", LicenseNumber}
  {
    var d := DefaultFields();
    CollectKeys(d, false, post, files);
    DefaultCaptions();
  }

  lemma DefaultCaptions()
    ensures (set f | f in DefaultFields() :: f.caption) == {"Name", "Father Name", "City", "Country", LicenseNumber}
  {
    var d := DefaultFields();
    assert d[0] in d && d[1] in d && d[2] in d && d[3] in d && d[4] in d;
    forall f | f in d ensures f.caption in {"Name", "Father Name", "City", "Country", LicenseNumber} {
      var i :| 0 <= i < 5 && d[i] == f;
    }
  }

  datatype AddOutcome = NoFields | LimitReached | Invalid(errors: seq<FieldError>) | Added

  // ---------------------------------------------------------------------------
  // Editing an entry

  /**
   * One field of the edit form: a new upload replaces a file field's value
   * (a failed one leaves the label out of the entry); otherwise a posted
   * value replaces it, and an unposted field keeps its old value ("" if none).
   */
  function EditField(f: Field, prior: Entry, post: map<string, string>, files: map<string, Upload>): Option<string> {
    var name := FieldKey(f.caption);
    if IsFile(f) && name in files then
      match files[name]
      case Uploaded(url) => Some(url)
      case UploadFailed(_) => None
    else if name in post then Some(post[name])
    else Some(if f.caption in prior then prior[f.caption] else "")
  }

  /** The previous file a successful upload replaces, which the handler deletes. */
  function ReplacedFile(f: Field, prior: Entry, files: map<string, Upload>): seq<string> {
    var name := FieldKey(f.caption);
    if IsFile(f) && name in files && files[name].Uploaded? && f.caption in prior && !Empty(prior[f.caption])
    then [prior[f.caption]] else []
  }

  /** The edited entry: built afresh from the fields, so labels outside the schema are dropped. */
  function Edited(fields: seq<Field>, prior: Entry, post: map<string, string>, files: map<string, Upload>): Entry {
    if fields == [] then map[]
    else
      var e := Edited(fields[..|fields| - 1], prior, post, files);
      var f := fields[|fields| - 1];
      match EditField(f, prior, post, files)
      case Some(v) => e[f.caption := v]
      case None => e
  }

  function Replaced(fields: seq<Field>, prior: Entry, files: map<string, Upload>): seq<string> {
    if fields == [] then []
    else Replaced(fields[..|fields| - 1], prior, files) + ReplacedFile(fields[|fields| - 1], prior, files)
  }

  /** The edited entry holds only schema labels. */
  lemma {:induction false} EditedKeys(fields: seq<Field>, prior: Entry, post: map<string, string>, files: map<string, Upload>)
    ensures Edited(fields, prior, post, files).Keys <= set f | f in fields :: f.caption
  {
    if fields != [] {
      var front := fields[..|fields| - 1];
      EditedKeys(front, prior, post, files);
      assert fields == front + [fields[|fields| - 1]];
    }
  }

  /**
   * With distinct labels, each field of the edited entry is what EditField
   * says: present iff it resolved, with that value.
   */
  lemma {:induction false} EditedAt(fields: seq<Field>, prior: Entry, post: map<string, string>, files: map<string, Upload>, i: int)
    requires UniqueCaptions(fields) && 0 <= i < |fields|
    ensures fields[i].caption in Edited(fields, prior, post, files) <==> EditField(fields[i], prior, post, files).Some?
    ensures fields[i].caption in Edited(fields, prior, post, files) ==>
      Edited(fields, prior, post, files)[fields[i].caption] == EditField(fields[i], prior, post, files).value
  {
    var front := fields[..|fields| - 1];
    var last := fields[|fields| - 1];
    assert UniqueCaptions(front);
    if i < |fields| - 1 {
      EditedAt(front, prior, post, files, i);
    } else {
      EditedKeys(front, prior, post, files);
      assert last.caption !in set f | f in front :: f.caption;
    }
  }

  /** Partial update: a field neither posted nor uploaded keeps its previous value. */
  lemma EditKeepsUnsubmitted(fields: seq<Field>, prior: Entry, post: map<string, string>, files: map<string, Upload>, i: int)
    requires UniqueCaptions(fields) && 0 <= i < |fields|
    requires FieldKey(fields[i].caption) !in post && FieldKey(fields[i].caption) !in files
    ensures fields[i].caption in Edited(fields, prior, post, files)
    ensures Edited(fields, prior, post, files)[fields[i].caption] == if fields[i].caption in prior then prior[fields[i].caption] else ""
  {
    EditedAt(fields, prior, post, files, i);
  }

  /** A failed upload on edit drops the field's label from the entry. */
  lemma EditFailedUploadDrops(fields: seq<Field>, prior: Entry, post: map<string, string>, files: map<string, Upload>, i: int)
    requires UniqueCaptions(fields) && 0 <= i < |fields| && IsFile(fields[i])
    requires FieldKey(fields[i].caption) in files && files[FieldKey(fields[i].caption)].UploadFailed?
    ensures fields[i].caption !in Edited(fields, prior, post, files)
  {
    EditedAt(fields, prior, post, files, i);
  }

  // ---------------------------------------------------------------------------
  // Deleting entries

  /** The stored uploads of an entry: non-empty values of its file fields. */
  function FileUrls(fields: seq<Field>, e: Entry): (urls: seq<string>)
    ensures forall u :: u in urls ==> (!Empty(u) &&
      exists i :: 0 <= i < |fields| && IsFile(fields[i]) && fields[i].caption in e && e[fields[i].caption] == u)
    ensures forall i :: 0 <= i < |fields| && IsFile(fields[i]) && fields[i].caption in e && !Empty(e[fields[i].caption]) ==>
      e[fields[i].caption] in urls
  {
    if fields == [] then []
    else
      var f := fields[|fields| - 1];
      FileUrls(fields[..|fields| - 1], e)
      + (if IsFile(f) && f.caption in e && !Empty(e[f.caption]) then [e[f.caption]] else [])
  }

  /** The ids a bulk delete acts on: in range, first occurrence only, in request order. */
  function Selected(ids: seq<int>, n: int): (sel: seq<int>)
    ensures forall k :: 0 <= k < |sel| ==> 0 <= sel[k] < n
    ensures forall x :: x in sel <==> x in ids && 0 <= x < n
    ensures forall k, m :: 0 <= k < m < |sel| ==> sel[k] != sel[m]
  {
    if ids == [] then []
    else
      var sel := Selected(ids[..|ids| - 1], n);
      var x := ids[|ids| - 1];
      if 0 <= x < n && x !in sel then sel + [x] else sel
  }

  /** The position of the first occurrence of `x` in `ids`. */
  function First(ids: seq<int>, x: int): (k: nat)
    requires x in ids
    ensures k < |ids| && ids[k] == x
    ensures forall j :: 0 <= j < k ==> ids[j] != x
  {
    if ids[0] == x then 0 else 1 + First(ids[1..], x)
  }

  /** An occurrence inside a prefix is found at the same place in the whole request. */
  lemma FirstOfPrefix(ids: seq<int>, n: int, x: int)
    requires 0 <= n <= |ids| && x in ids[..n]
    ensures First(ids, x) == First(ids[..n], x)
  {
    assert ids[First(ids[..n], x)] == x;
  }

  /** Ids ordered by first occurrence in a prefix stay so ordered in the whole request, before its last element. */
  lemma OrderInPrefix(ids: seq<int>, sel: seq<int>)
    requires ids != []
    requires forall k :: 0 <= k < |sel| ==> sel[k] in ids[..|ids| - 1] && sel[k] in ids
    requires forall k, m :: 0 <= k < m < |sel| ==> First(ids[..|ids| - 1], sel[k]) < First(ids[..|ids| - 1], sel[m])
    ensures forall k :: 0 <= k < |sel| ==> First(ids, sel[k]) < |ids| - 1
    ensures forall k, m :: 0 <= k < m < |sel| ==> First(ids, sel[k]) < First(ids, sel[m])
  {
    var last := |ids| - 1;
    forall k | 0 <= k < |sel|
      ensures First(ids, sel[k]) == First(ids[..last], sel[k]) < last
    {
      FirstOfPrefix(ids, last, sel[k]);
    }
  }

  /** The selected ids follow the request order of their first occurrences. */
  lemma {:induction false} SelectedInRequestOrder(ids: seq<int>, n: int)
    ensures forall k, m :: 0 <= k < m < |Selected(ids, n)| ==>
      First(ids, Selected(ids, n)[k]) < First(ids, Selected(ids, n)[m])
  {
    if ids != [] {
      var last := |ids| - 1;
      var front := ids[..last];
      var sel0 := Selected(front, n);
      SelectedInRequestOrder(front, n);
      forall k | 0 <= k < |sel0| ensures sel0[k] in front && sel0[k] in ids {
        assert sel0[k] in sel0;
        assert ids[First(front, sel0[k])] == sel0[k];
      }
      OrderInPrefix(ids, sel0);
      var x := ids[last];
      if 0 <= x < n && x !in sel0 {
        var sel := sel0 + [x];
        assert Selected(ids, n) == sel;
        assert x !in front;
        assert First(ids, x) == last;
        forall k, m | 0 <= k < m < |sel|
          ensures First(ids, sel[k]) < First(ids, sel[m])
        {
          assert sel[k] == sel0[k];
          if m < |sel0| {
            assert sel[m] == sel0[m];
          }
        }
      } else {
        assert Selected(ids, n) == sel0;
      }
    }
  }

  /** The uploads of the selected entries, in the order they are deleted. */
  function SelectedUrls(fields: seq<Field>, entries: seq<Entry>, sel: seq<int>): seq<string>
    requires forall k :: 0 <= k < |sel| ==> 0 <= sel[k] < |entries|
  {
    if sel == [] then []
    else SelectedUrls(fields, entries, sel[..|sel| - 1]) + FileUrls(fields, entries[sel[|sel| - 1]])
  }

  /** Bulk delete keeps exactly the entries at unselected positions, in order. */
  lemma BulkDeleteResult(entries: seq<Entry>, ids: seq<int>, i: int, k: int)
    ensures 0 <= i < |entries| && i !in ids ==>
      Kept(i, set x | x in ids) < |Without(entries, set x | x in ids)|
      && Without(entries, set x | x in ids)[Kept(i, set x | x in ids)] == entries[i]
    ensures 0 <= k < |Without(entries, set x | x in ids)| ==>
      exists j :: 0 <= j < |entries| && j !in ids && Without(entries, set x | x in ids)[k] == entries[j]
    ensures |Without(entries, set x | x in ids)| == Kept(|entries|, set x | x in ids)
  {
    var drop := set x | x in ids;
    WithoutLength(entries, drop);
    if 0 <= i < |entries| && i !in ids {
      WithoutAt(entries, drop, i);
    }
    if 0 <= k < |Without(entries, drop)| {
      WithoutFrom(entries, drop, k);
    }
  }

  // ---------------------------------------------------------------------------
  // The handlers' loops over the fields and over the selected ids

  /** The add handler's loop: resolve every field in order, collecting values and errors. */
  method ResolveEntry(fields: seq<Field>, premium: bool, post: map<string, string>, files: map<string, Upload>)
    returns (entry: Entry, errors: seq<FieldError>)
    ensures (entry, errors) == Collect(fields, premium, post, files)
    ensures errors == [] <==> forall i :: 0 <= i < |fields| ==> AddField(fields[i], premium, post, files).Value?
  {
    entry, errors := map[], [];
    var i := 0;
    while i < |fields|
      invariant 0 <= i <= |fields|
      invariant (entry, errors) == Collect(fields[..i], premium, post, files)
    {
      var f := fields[i];
      assert fields[..i + 1][..i] == fields[..i];
      var c := AddField(f, premium, post, files);
      if c.Value? {
        entry := entry[f.caption := c.value];
      } else {
        errors := errors + [c.error];
      }
      i := i + 1;
    }
    assert fields[..i] == fields;
    CollectErrors(fields, premium, post, files);
  }

  /** The edit handler's loop: the rebuilt entry and the replaced uploads. */
  method EditedEntry(fields: seq<Field>, prior: Entry, post: map<string, string>, files: map<string, Upload>)
    returns (e: Entry, unlinked: seq<string>)
    ensures e == Edited(fields, prior, post, files)
    ensures unlinked == Replaced(fields, prior, files)
    ensures e.Keys <= set f | f in fields :: f.caption
  {
    e, unlinked := map[], [];
    var i := 0;
    while i < |fields|
      invariant 0 <= i <= |fields|
      invariant e == Edited(fields[..i], prior, post, files)
      invariant unlinked == Replaced(fields[..i], prior, files)
    {
      var f := fields[i];
      assert fields[..i + 1][..i] == fields[..i];
      unlinked := unlinked + ReplacedFile(f, prior, files);
      var v := EditField(f, prior, post, files);
      if v.Some? {
        e := e[f.caption := v.value];
      }
      i := i + 1;
    }
    assert fields[..i] == fields;
    EditedKeys(fields, prior, post, files);
  }

  /**
   * The bulk-delete loop: each in-range id not already removed is marked
   * (`isset` fails for a repeated id) and its uploads are collected.
   */
  method SelectForDeletion(fields: seq<Field>, entries: seq<Entry>, ids: seq<int>)
    returns (gone: set<int>, urls: seq<string>)
    ensures gone == set x | x in Selected(ids, |entries|)
    ensures forall x :: x in gone <==> x in ids && 0 <= x < |entries|
    ensures urls == SelectedUrls(fields, entries, Selected(ids, |entries|))
  {
    var n := |entries|;
    gone, urls := {}, [];
    ghost var sel: seq<int> := [];
    var k := 0;
    while k < |ids|
      invariant 0 <= k <= |ids|
      invariant sel == Selected(ids[..k], n)
      invariant gone == set x | x in sel
      invariant urls == SelectedUrls(fields, entries, sel)
    {
      var id := ids[k];
      assert ids[..k + 1][..k] == ids[..k];
      if 0 <= id < n && id !in gone {
        urls := urls + FileUrls(fields, entries[id]);
        gone := gone + {id};
        sel := sel + [id];
      }
      k := k + 1;
    }
    assert ids[..k] == ids;
  }

  // ---------------------------------------------------------------------------
  // The entry list, changed in place by the Entries page's handlers

  class EntryStore {
    var entries: seq<Entry>

    constructor ()
      ensures entries == []
    {
      entries := [];
    }

    /**
     * The add handler. Nothing happens without fields; the free tier is
     * refused at ten entries before any validation; otherwise the fields are
     * resolved in order and the entry is appended only if none failed.
     */
    method AddEntry(premium: bool, stored: Option<seq<Field>>, post: map<string, string>, files: map<string, Upload>)
      returns (outcome: AddOutcome)
      modifies this
      ensures var fields := EntryFields(premium, stored);
        && (outcome == NoFields <==> fields == [])
        && (outcome == LimitReached <==> fields != [] && !premium && |old(entries)| >= FreeEntryLimit)
        && (outcome.Invalid? ==> outcome.errors == Collect(fields, premium, post, files).1 && outcome.errors != [])
        && (outcome == Added <==> fields != [] && (premium || |old(entries)| < FreeEntryLimit)
                                  && Collect(fields, premium, post, files).1 == [])
      ensures entries == if outcome == Added
        then old(entries) + [Collect(EntryFields(premium, stored), premium, post, files).0]
        else old(entries)
    {
      var fields := EntryFields(premium, stored);
      var canAdd := premium || |entries| < FreeEntryLimit;
      if fields == [] {
        return NoFields;
      }
      if !canAdd {
        return LimitReached;
      }
      var entry, errors := ResolveEntry(fields, premium, post, files);
      if errors == [] {
        entries := entries + [entry];
        outcome := Added;
      } else {
        outcome := Invalid(errors);
      }
    }

    /**
     * The bulk-delete handler: drops every selected in-range position at
     * once and renumbers the rest. Out-of-range and repeated ids are
     * ignored; with no valid id nothing changes. Returns the uploads it
     * deletes.
     */
    method BulkDelete(premium: bool, stored: Option<seq<Field>>, canManage: bool, ids: seq<int>)
      returns (deleted: bool, unlinked: seq<string>)
      modifies this
      ensures var fields := EntryFields(premium, stored);
        deleted <==> fields != [] && canManage && exists x :: x in ids && 0 <= x < |old(entries)|
      ensures entries == if deleted then Without(old(entries), set x | x in ids) else old(entries)
      ensures unlinked == if deleted
        then SelectedUrls(EntryFields(premium, stored), old(entries), Selected(ids, |old(entries)|)) else []
    {
      var fields := EntryFields(premium, stored);
      deleted, unlinked := false, [];
      if fields == [] || !canManage || ids == [] {
        return;
      }
      var gone, urls := SelectForDeletion(fields, entries, ids);
      if gone != {} {
        WithoutInRange(entries, gone, set x | x in ids);
        entries := Without(entries, gone);
        deleted, unlinked := true, urls;
      }
    }

    /** The single-delete link: removes one in-range position; any other id changes nothing. */
    method DeleteEntry(premium: bool, stored: Option<seq<Field>>, canManage: bool, postEmpty: bool, id: int)
      returns (deleted: bool, unlinked: seq<string>)
      modifies this
      ensures deleted <==> EntryFields(premium, stored) != [] && canManage && postEmpty && 0 <= id < |old(entries)|
      ensures entries == if deleted then old(entries)[..id] + old(entries)[id + 1..] else old(entries)
      ensures unlinked == if deleted then FileUrls(EntryFields(premium, stored), old(entries)[id]) else []
    {
      var fields := EntryFields(premium, stored);
      deleted, unlinked := false, [];
      if fields != [] && canManage && postEmpty && 0 <= id < |entries| {
        unlinked := FileUrls(fields, entries[id]);
        WithoutOne(entries, id);
        entries := Without(entries, {id});
        deleted := true;
      }
    }

    /**
     * The premium edit handler: the entry at `id` is replaced by one built
     * from the fields, with partial-update semantics; no required-field
     * validation is done. Returns the replaced uploads it deletes.
     */
    method EditEntry(premium: bool, stored: Option<seq<Field>>, id: int, post: map<string, string>, files: map<string, Upload>)
      returns (updated: bool, unlinked: seq<string>)
      modifies this
      ensures updated <==> premium && EntryFields(premium, stored) != [] && 0 <= id < |old(entries)|
      ensures entries == if updated
        then old(entries)[id := Edited(EntryFields(premium, stored), old(entries)[id], post, files)]
        else old(entries)
      ensures unlinked == if updated then Replaced(EntryFields(premium, stored), old(entries)[id], files) else []
    {
      var fields := EntryFields(premium, stored);
      updated, unlinked := false, [];
      if fields == [] || !premium || !(0 <= id < |entries|) {
        return;
      }
      var e;
      e, unlinked := EditedEntry(fields, entries[id], post, files);
      entries := entries[id := e];
      updated := true;
    }
  }

  /**
   * With ten entries stored, an add on the free tier is refused and changes
   * nothing; the same add on the premium tier is not held back by the cap.
   */
  method FreeTierCap(store: EntryStore, stored: Option<seq<Field>>, post: map<string, string>, files: map<string, Upload>)
    returns (free: AddOutcome, premium: AddOutcome)
    requires |store.entries| == FreeEntryLimit
    modifies store
    ensures free == LimitReached
    ensures premium != LimitReached
    ensures premium == Added ==> |store.entries| == FreeEntryLimit + 1
  {
    free := store.AddEntry(false, stored, post, files);
    premium := store.AddEntry(true, stored, post, files);
  }
}
