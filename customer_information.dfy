/** The customer-details page of src/components/page/customerInformation.tsx: the
    form state (the three text fields, the custom-field entries and the four
    error flags), the validation `onNext` runs before the order continues to
    checkout, and the change handlers that edit the form. */
module CustomerInformation {
  import opened Wrappers
  import Promotions

  /** The path the page navigates to once the details are accepted
      (`checkoutPath` of src/components/main.tsx, followed by `/true`). */
  const CheckoutPath: string := "/checkout"
  const AcceptedPath: string := CheckoutPath + "/true"

  datatype FieldType = StringField | NumberField

  /** A custom field the restaurant asks for. */
  datatype RequestedField = RequestedField(fieldLabel: string, fieldType: FieldType, required: bool)

  /** What the restaurant asks the customer for; `customFields` may be absent. */
  datatype Request = Request(firstName: bool, email: bool, phoneNumber: bool, signature: bool,
                             customFields: Option<seq<RequestedField>>)

  /** One entry of the page's `customFields` list: a copy of the requested field
      with the value typed in (absent until something was typed). */
  datatype CustomField = CustomField(fieldLabel: string, fieldType: FieldType, required: bool, value: Option<string>)

  /** One slot of the page's `customFields` array. Writing at an index past the
      end leaves holes, which `forEach` skips. Copying the array with `[...a]`
      turns every hole into a real `undefined` element, which `forEach` visits. */
  datatype Slot = Hole | Undefined | Present(field: CustomField)

  type Entries = seq<Slot>

  /** The details stored in the cart once the form is accepted. */
  datatype CustomerDetails = CustomerDetails(firstName: string, email: string, phoneNumber: string,
                                             signatureBase64: string, customFields: Entries)

  datatype Flags = Flags(firstNameError: bool, emailError: bool, phoneNumberError: bool, signatureError: bool)

  const NoFlags := Flags(false, false, false, false)

  /** What pressing "Complete Order" does: nothing without a request; a TypeError
      out of the custom-field scan, after which nothing is saved and the page
      stays; otherwise the form is rejected with one "Please fill in" toast per
      failing custom field, or the details are saved, the page moves on and
      `props.onNext` runs. */
  datatype NextOutcome =
    | NotRequested
    | Threw
    | Rejected(toasts: seq<string>)
    | Accepted(details: CustomerDetails, navigateTo: string)

  // ---------------------------------------------------------------------------
  // Finding the entry for a custom field

  predicate HasLabel(e: Slot, fieldLabel: string) {
    e.Present? && e.field.fieldLabel == fieldLabel
  }

  /** The entry a scan that runs to the end leaves in `foundField`: the last one
      carrying the label, or none. Holes and `undefined` slots carry no label. */
  function FoundField(entries: Entries, fieldLabel: string): (r: Option<CustomField>)
    ensures r.None? <==> forall i :: 0 <= i < |entries| ==> !HasLabel(entries[i], fieldLabel)
    ensures r.Some? ==> r.value.fieldLabel == fieldLabel && Present(r.value) in entries
  {
    if entries == [] then None
    else if HasLabel(Promotions.Last(entries), fieldLabel) then Some(Promotions.Last(entries).field)
    else
      var r := FoundField(entries[..|entries| - 1], fieldLabel);
      assert forall i :: 0 <= i < |entries| - 1 ==> entries[..|entries| - 1][i] == entries[i];
      r
  }

  /** The entry found is the LAST one with the label: it sits at some index and
      no later index carries the label. */
  lemma {:induction false} FoundFieldIsLast(entries: Entries, fieldLabel: string)
    requires FoundField(entries, fieldLabel).Some?
    ensures exists i :: 0 <= i < |entries| && entries[i] == Present(FoundField(entries, fieldLabel).value) &&
                        forall j :: i < j < |entries| ==> !HasLabel(entries[j], fieldLabel)
  {
    var n := |entries| - 1;
    if HasLabel(entries[n], fieldLabel) {
      assert entries[n] == Present(FoundField(entries, fieldLabel).value);
    } else {
      var front := entries[..n];
      FoundFieldIsLast(front, fieldLabel);
      var i :| 0 <= i < |front| && front[i] == Present(FoundField(front, fieldLabel).value) &&
                forall j :: i < j < |front| ==> !HasLabel(front[j], fieldLabel);
      assert entries[i] == Present(FoundField(entries, fieldLabel).value);
      forall j | i < j < |entries|
        ensures !HasLabel(entries[j], fieldLabel)
      {
        if j < n {
          assert front[j] == entries[j];
        }
      }
    }
  }

  /** Conversely, an entry with the label that no later entry overrides is the one found. */
  lemma {:induction false} LastWithLabelIsFound(entries: Entries, fieldLabel: string, i: nat)
    requires i < |entries| && HasLabel(entries[i], fieldLabel)
    requires forall j :: i < j < |entries| ==> !HasLabel(entries[j], fieldLabel)
    ensures FoundField(entries, fieldLabel) == Some(entries[i].field)
  {
    var n := |entries| - 1;
    if i < n {
      var front := entries[..n];
      forall j | i < j < |front|
        ensures !HasLabel(front[j], fieldLabel)
      {
        assert front[j] == entries[j];
      }
      LastWithLabelIsFound(front, fieldLabel, i);
      assert !HasLabel(entries[n], fieldLabel);
    }
  }

  /** Some slot is an `undefined` element. */
  predicate HasUndefined(entries: Entries) {
    exists i :: 0 <= i < |entries| && entries[i].Undefined?
  }

  /** How the inner `forEach` (lines 83-87) ends: it reads `customField.label` of
      every element it visits, so it throws a TypeError at an `undefined` one. */
  datatype ScanOutcome = ScanThrew | ScanFound(found: Option<CustomField>)

  /** The scan for one label, element by element: it throws exactly when the list
      holds an `undefined` element, and otherwise finds the last entry with the label. */
  function Scan(entries: Entries, fieldLabel: string): (r: ScanOutcome)
    ensures r.ScanThrew? <==> HasUndefined(entries)
    ensures r.ScanFound? ==> r.found == FoundField(entries, fieldLabel)
  {
    if entries == [] then ScanFound(None)
    else
      var front := entries[..|entries| - 1];
      var last := Promotions.Last(entries);
      var before := Scan(front, fieldLabel);
      assert forall i :: 0 <= i < |front| ==> front[i] == entries[i];
      assert last.Undefined? ==> entries[|entries| - 1].Undefined?;
      if before.ScanThrew? || last.Undefined? then ScanThrew
      else if HasLabel(last, fieldLabel) then ScanFound(Some(last.field))
      else before
  }

  /** Once the scan has thrown, the elements after it do not matter. */
  lemma ScanThrewExtends(a: Entries, b: Entries, fieldLabel: string)
    requires Scan(a, fieldLabel).ScanThrew?
    ensures Scan(a + b, fieldLabel).ScanThrew?
  {
    var i :| 0 <= i < |a| && a[i].Undefined?;
    assert (a + b)[i].Undefined?;
  }

  /** A required custom field passes when its entry exists and holds a non-empty value. */
  predicate Filled(entries: Entries, fieldLabel: string) {
    var found := FoundField(entries, fieldLabel);
    found.Some? && Truthy(found.value.value)
  }

  /** The labels the custom-field check complains about, in request order: one per
      required field whose entry is missing or empty. */
  function MissingFields(fields: seq<RequestedField>, entries: Entries): (r: seq<string>)
    ensures |r| <= |fields|
  {
    if fields == [] then []
    else
      var f := Promotions.Last(fields);
      MissingFields(fields[..|fields| - 1], entries) + (if f.required && !Filled(entries, f.fieldLabel) then [f.fieldLabel] else [])
  }

  lemma {:induction false} MissingFieldsConcat(a: seq<RequestedField>, b: seq<RequestedField>, entries: Entries)
    ensures MissingFields(a + b, entries) == MissingFields(a, entries) + MissingFields(b, entries)
  {
    if b == [] {
      assert a + b == a;
    } else {
      assert (a + b)[..|a + b| - 1] == a + b[..|b| - 1];
      MissingFieldsConcat(a, b[..|b| - 1], entries);
    }
  }

  /** Every complaint names a required field that is not filled, and every required
      field that is not filled is complained about. */
  lemma {:induction false} MissingFieldsExactly(fields: seq<RequestedField>, entries: Entries, fieldLabel: string)
    ensures fieldLabel in MissingFields(fields, entries) <==> !Filled(entries, fieldLabel) && RequiredIn(fields, fieldLabel)
  {
    if fields != [] {
      var front := fields[..|fields| - 1];
      var f := Promotions.Last(fields);
      MissingFieldsExactly(front, entries, fieldLabel);
      RequiredInStep(fields, fieldLabel);
      var extra := if f.required && !Filled(entries, f.fieldLabel) then [f.fieldLabel] else [];
      assert MissingFields(fields, entries) == MissingFields(front, entries) + extra;
      assert fieldLabel in extra <==> f.required && !Filled(entries, f.fieldLabel) && f.fieldLabel == fieldLabel;
    }
  }

  /** Some requested field is required, so the scan runs at least once. */
  predicate AnyRequired(fields: seq<RequestedField>) {
    exists i :: 0 <= i < |fields| && fields[i].required
  }

  /** `onNext` throws out of the custom-field check: custom fields are requested,
      one of them is required, and the list holds an `undefined` element. */
  predicate CheckThrows(request: Request, entries: Entries) {
    request.customFields.Some? && AnyRequired(request.customFields.value) && HasUndefined(entries)
  }

  /** Some field of the list with this label is required. */
  predicate RequiredIn(fields: seq<RequestedField>, fieldLabel: string) {
    exists i :: 0 <= i < |fields| && fields[i].required && fields[i].fieldLabel == fieldLabel
  }

  lemma RequiredInStep(fields: seq<RequestedField>, fieldLabel: string)
    requires fields != []
    ensures RequiredIn(fields, fieldLabel) <==>
            RequiredIn(fields[..|fields| - 1], fieldLabel) ||
            (Promotions.Last(fields).required && Promotions.Last(fields).fieldLabel == fieldLabel)
  {
    var front := fields[..|fields| - 1];
    if RequiredIn(fields, fieldLabel) {
      var i :| 0 <= i < |fields| && fields[i].required && fields[i].fieldLabel == fieldLabel;
      if i < |front| {
        assert front[i] == fields[i];
      }
    }
    if RequiredIn(front, fieldLabel) {
      var i :| 0 <= i < |front| && front[i].required && front[i].fieldLabel == fieldLabel;
      assert fields[i] == front[i];
    }
  }

  /** The custom-field check passes exactly when every required field is filled. */
  lemma {:induction false} NothingMissingIff(fields: seq<RequestedField>, entries: Entries)
    ensures MissingFields(fields, entries) == [] <==>
            forall i :: 0 <= i < |fields| && fields[i].required ==> Filled(entries, fields[i].fieldLabel)
  {
    if MissingFields(fields, entries) != [] {
      var fieldLabel := MissingFields(fields, entries)[0];
      MissingFieldsExactly(fields, entries, fieldLabel);
    } else {
      forall i | 0 <= i < |fields| && fields[i].required
        ensures Filled(entries, fields[i].fieldLabel)
      {
        MissingFieldsExactly(fields, entries, fields[i].fieldLabel);
      }
    }
  }

  // ---------------------------------------------------------------------------
  // The fixed fields

  /** The error flags after the four fixed checks, applied one after the other
      with none of them skipping the rest; a flag already raised stays raised. */
  function CheckFlags(request: Request, flags: Flags, firstName: string, email: string, phoneNumber: string,
                      canvasEmpty: bool): (r: Flags)
    ensures r.firstNameError <==> flags.firstNameError || (request.firstName && firstName == "")
    ensures r.emailError <==> flags.emailError || (request.email && email == "")
    ensures r.phoneNumberError <==> flags.phoneNumberError || (request.phoneNumber && phoneNumber == "")
    ensures r.signatureError <==> flags.signatureError || (request.signature && canvasEmpty)
  {
    var f1 := if request.firstName && firstName == "" then flags.(firstNameError := true) else flags;
    var f2 := if request.email && email == "" then f1.(emailError := true) else f1;
    var f3 := if request.phoneNumber && phoneNumber == "" then f2.(phoneNumberError := true) else f2;
    if request.signature && canvasEmpty then f3.(signatureError := true) else f3
  }

  /** Whether `onNext` rejects the form: a requested fixed field is empty, the
      requested signature is blank, or a required custom field is not filled. */
  predicate Rejects(request: Request, firstName: string, email: string, phoneNumber: string,
                    canvasEmpty: bool, entries: Entries)
  {
    FixedFieldMissing(request, firstName, email, phoneNumber, canvasEmpty) ||
    (request.customFields.Some? && MissingFields(request.customFields.value, entries) != [])
  }

  /** A requested fixed field is empty or the requested signature is blank. */
  predicate FixedFieldMissing(request: Request, firstName: string, email: string, phoneNumber: string, canvasEmpty: bool) {
    (request.firstName && firstName == "") || (request.email && email == "") ||
    (request.phoneNumber && phoneNumber == "") || (request.signature && canvasEmpty)
  }

  /** The form is rejected exactly when some check raises a flag on a clean form
      or some custom field is reported missing. */
  lemma RejectedIffSomethingReported(request: Request, firstName: string, email: string, phoneNumber: string,
                                     canvasEmpty: bool, entries: Entries)
    ensures Rejects(request, firstName, email, phoneNumber, canvasEmpty, entries) <==>
            CheckFlags(request, NoFlags, firstName, email, phoneNumber, canvasEmpty) != NoFlags ||
            (request.customFields.Some? && MissingFields(request.customFields.value, entries) != [])
  {
  }

  /** What `[...a]` makes of one slot: a hole becomes `undefined`. */
  function Spread(e: Slot): (r: Slot)
    ensures !r.Hole? && (e.Present? ==> r == e)
  {
    if e.Hole? then Undefined else e
  }

  /** Typing at `index`: the list is copied with `[...customFields]`, then the slot
      gets the existing entry with its value replaced or `{...field, value}`.
      Every earlier hole is `undefined` in the copy, and indices skipped over by
      the write are new holes. */
  function SetEntry(entries: Entries, index: nat, field: RequestedField, value: string): (r: Entries)
    ensures |r| == if index < |entries| then |entries| else index + 1
    ensures r[index].Present? && r[index].field.value == Some(value)
    ensures index < |entries| && entries[index].Present? ==>
              r[index].field == entries[index].field.(value := Some(value))
    ensures !(index < |entries| && entries[index].Present?) ==>
              r[index].field == CustomField(field.fieldLabel, field.fieldType, field.required, Some(value))
    ensures forall j :: 0 <= j < |r| && j != index ==> r[j] == if j < |entries| then Spread(entries[j]) else Hole
  {
    var copy := seq(|entries|, j requires 0 <= j < |entries| => Spread(entries[j]));
    if index < |copy| && copy[index].Present? then
      copy[index := Present(copy[index].field.(value := Some(value)))]
    else
      var padded := if index < |copy| then copy else copy + seq(index + 1 - |copy|, _ => Hole);
      padded[index := Present(CustomField(field.fieldLabel, field.fieldType, field.required, Some(value)))]
  }

  /** A hole that an edit does not overwrite comes out of the copy as `undefined`,
      so from then on every check with a required custom field throws. */
  lemma EditLeavesUndefined(request: Request, entries: Entries, index: nat, field: RequestedField, value: string, j: nat)
    requires j < |entries| && j != index && entries[j].Hole?
    requires request.customFields.Some? && AnyRequired(request.customFields.value)
    ensures SetEntry(entries, index, field, value)[j] == Undefined
    ensures CheckThrows(request, SetEntry(entries, index, field, value))
  {
    assert SetEntry(entries, index, field, value)[j].Undefined?;
  }

  /** Two keystrokes into a required field shown second, with nothing typed into
      the optional field before it: the first leaves a hole at index 0, the second
      copies it to `undefined`, and "Complete Order" then throws. */
  lemma SecondKeystrokeThrows(note: RequestedField, table: RequestedField)
    requires !note.required && table.required
    ensures var once := SetEntry([], 1, table, "1");
            var twice := SetEntry(once, 1, table, "12");
            once[0] == Hole && twice[0] == Undefined &&
            CheckThrows(Request(false, false, false, false, Some([note, table])), twice)
  {
    var request := Request(false, false, false, false, Some([note, table]));
    var once := SetEntry([], 1, table, "1");
    assert request.customFields.value[1].required;
    EditLeavesUndefined(request, once, 1, table, "12", 0);
  }

  /** The check that skips missing slots, as the scan evidently intends, accepts
      that same form: the required field is filled. */
  lemma SecondKeystrokeSkipped(note: RequestedField, table: RequestedField)
    requires !note.required && table.required && note.fieldLabel != table.fieldLabel
    ensures var twice := SetEntry(SetEntry([], 1, table, "1"), 1, table, "12");
            MissingFields([note, table], twice) == []
  {
    var twice := SetEntry(SetEntry([], 1, table, "1"), 1, table, "12");
    LastWithLabelIsFound(twice, table.fieldLabel, 1);
    NothingMissingIff([note, table], twice);
  }

  /** Typing into the last entry carrying a required field's label decides that
      field's check: it passes exactly when the new text is not empty. */
  lemma EditDecidesField(entries: Entries, index: nat, field: RequestedField, value: string)
    requires var r := SetEntry(entries, index, field, value);
             forall j :: index < j < |r| ==> !HasLabel(r[j], r[index].field.fieldLabel)
    ensures var r := SetEntry(entries, index, field, value);
            Filled(r, r[index].field.fieldLabel) <==> value != ""
  {
    var r := SetEntry(entries, index, field, value);
    LastWithLabelIsFound(r, r[index].field.fieldLabel, index);
  }

  // ---------------------------------------------------------------------------
  // The page

  /** The page's state: what `useState` holds between renders. */
  class CustomerInformationPage {
    var firstName: string
    var email: string
    var phoneNumber: string
    var customFields: Entries
    var flags: Flags

    /** The form opens with the details already in the cart, if any, and no errors. */
    constructor (saved: Option<CustomerDetails>)
      ensures saved.Some? ==> firstName == saved.value.firstName && email == saved.value.email &&
                              phoneNumber == saved.value.phoneNumber && customFields == saved.value.customFields
      ensures saved.None? ==> firstName == "" && email == "" && phoneNumber == "" && customFields == []
      ensures flags == NoFlags
    {
      if saved.Some? {
        firstName, email, phoneNumber := saved.value.firstName, saved.value.email, saved.value.phoneNumber;
        customFields := saved.value.customFields;
      } else {
        firstName, email, phoneNumber, customFields := "", "", "", [];
      }
      flags := NoFlags;
    }

    /** The inner `forEach`: visits every element that is not a hole, throws at an
        `undefined` one, and keeps the last entry with the label. */
    method FindField(fieldLabel: string) returns (outcome: ScanOutcome)
      ensures outcome == Scan(customFields, fieldLabel)
    {
      var found := None;
      var j := 0;
      while j < |customFields|
        invariant 0 <= j <= |customFields|
        invariant Scan(customFields[..j], fieldLabel) == ScanFound(found)
      {
        assert customFields[..j + 1][..j] == customFields[..j];
        if customFields[j].Undefined? {
          assert Scan(customFields[..j + 1], fieldLabel) == ScanThrew;
          assert customFields[..j + 1] + customFields[j + 1..] == customFields;
          ScanThrewExtends(customFields[..j + 1], customFields[j + 1..], fieldLabel);
          return ScanThrew;
        }
        if HasLabel(customFields[j], fieldLabel) {
          found := Some(customFields[j].field);
        }
        j := j + 1;
      }
      assert customFields[..j] == customFields;
      outcome := ScanFound(found);
    }

    /** The outer `forEach` over the requested custom fields: collects one toast
        per required field that is missing or empty, or throws out of the first
        required field's scan. */
    method CheckCustomFields(fields: seq<RequestedField>) returns (toasts: seq<string>, threw: bool)
      ensures threw <==> AnyRequired(fields) && HasUndefined(customFields)
      ensures !threw ==> toasts == MissingFields(fields, customFields)
    {
      toasts := [];
      var i := 0;
      while i < |fields|
        invariant 0 <= i <= |fields|
        invariant toasts == MissingFields(fields[..i], customFields)
        invariant HasUndefined(customFields) ==> forall k :: 0 <= k < i ==> !fields[k].required
      {
        assert fields[..i + 1][..i] == fields[..i];
        if fields[i].required {
          var outcome := FindField(fields[i].fieldLabel);
          if outcome.ScanThrew? {
            return toasts, true;
          }
          var found := outcome.found;
          if found.None? || !Truthy(found.value.value) {
            toasts := toasts + [fields[i].fieldLabel];
          }
        }
        i := i + 1;
      }
      assert fields[..i] == fields;
      threw := false;
    }

    /** The checks of the fixed fields and the signature: the flags they raise
        and whether any of them failed. */
    method RaiseFlags(req: Request, canvasEmpty: bool) returns (f: Flags, invalid: bool)
      ensures f == CheckFlags(req, flags, firstName, email, phoneNumber, canvasEmpty)
      ensures invalid == FixedFieldMissing(req, firstName, email, phoneNumber, canvasEmpty)
    {
      invalid := false;
      f := flags;
      if req.firstName && firstName == "" {
        f := f.(firstNameError := true);
        invalid := true;
      }
      if req.email && email == "" {
        f := f.(emailError := true);
        invalid := true;
      }
      if req.phoneNumber && phoneNumber == "" {
        f := f.(phoneNumberError := true);
        invalid := true;
      }
      if req.signature && canvasEmpty {
        f := f.(signatureError := true);
        invalid := true;
      }
    }

    /** "Complete Order". `canvasEmpty` is what the signature pad reports and
        `signatureImage` the trimmed signature resized to 200 pixels wide; the pad
        is on the page only when a signature is requested. */
    method OnNext(request: Option<Request>, canvasEmpty: bool, signatureImage: string) returns (outcome: NextOutcome)
      modifies this
      ensures firstName == old(firstName) && email == old(email) && phoneNumber == old(phoneNumber)
      ensures customFields == old(customFields)
      ensures request.None? ==> outcome == NotRequested && flags == old(flags)
      ensures request.Some? ==> flags == CheckFlags(request.value, old(flags), firstName, email, phoneNumber, canvasEmpty)
      ensures request.Some? && CheckThrows(request.value, customFields) ==> outcome == Threw
      ensures request.Some? && !CheckThrows(request.value, customFields) &&
              Rejects(request.value, firstName, email, phoneNumber, canvasEmpty, customFields) ==>
                outcome == Rejected(if request.value.customFields.Some?
                                    then MissingFields(request.value.customFields.value, customFields) else [])
      ensures request.Some? && !CheckThrows(request.value, customFields) &&
              !Rejects(request.value, firstName, email, phoneNumber, canvasEmpty, customFields) ==>
                outcome == Accepted(CustomerDetails(firstName, email, phoneNumber,
                                                    if request.value.signature then signatureImage else "",
                                                    customFields), AcceptedPath)
    {
      if request.None? {
        return NotRequested;
      }
      var req := request.value;
      var f, invalid := RaiseFlags(req, canvasEmpty);
      var toasts := [];
      flags := f;
      if req.customFields.Some? {
        var threw;
        toasts, threw := CheckCustomFields(req.customFields.value);
        if threw {
          return Threw;
        }
        if toasts != [] {
          invalid := true;
        }
      }
      if invalid {
        outcome := Rejected(toasts);
      } else {
        var signature := if req.signature then signatureImage else "";
        outcome := Accepted(CustomerDetails(firstName, email, phoneNumber, signature, customFields), AcceptedPath);
      }
    }

    method OnChangeFirstName(value: string)
      modifies this
      ensures firstName == value && flags == old(flags).(firstNameError := false)
      ensures email == old(email) && phoneNumber == old(phoneNumber) && customFields == old(customFields)
    {
      firstName := value;
      flags := flags.(firstNameError := false);
    }

    method OnChangeEmail(value: string)
      modifies this
      ensures email == value && flags == old(flags).(emailError := false)
      ensures firstName == old(firstName) && phoneNumber == old(phoneNumber) && customFields == old(customFields)
    {
      email := value;
      flags := flags.(emailError := false);
    }

    method OnChangePhoneNumber(value: string)
      modifies this
      ensures phoneNumber == value && flags == old(flags).(phoneNumberError := false)
      ensures firstName == old(firstName) && email == old(email) && customFields == old(customFields)
    {
      phoneNumber := value;
      flags := flags.(phoneNumberError := false);
    }

    /** Typing into the custom field shown at `index`. */
    method OnChangeCustomField(field: RequestedField, index: nat, value: string)
      modifies this
      ensures customFields == SetEntry(old(customFields), index, field, value)
      ensures firstName == old(firstName) && email == old(email) && phoneNumber == old(phoneNumber)
      ensures flags == old(flags)
    {
      var entries := customFields;
      var copy := seq(|entries|, j requires 0 <= j < |entries| => Spread(entries[j]));
      if index < |copy| && copy[index].Present? {
        copy := copy[index := Present(copy[index].field.(value := Some(value)))];
      } else {
        if |copy| <= index {
          copy := copy + seq(index + 1 - |copy|, _ => Hole);
        }
        copy := copy[index := Present(CustomField(field.fieldLabel, field.fieldType, field.required, Some(value)))];
      }
      customFields := copy;
    }
  }
}
