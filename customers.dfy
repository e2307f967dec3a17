/** The customer directory: one record per customer, keyed by its customer
    id, kept in a list that the add, edit and delete dialogs rewrite whole. */
module Directory {
  import opened Wrappers
  import opened Storage
  import opened Sequences
  import opened Text
  import opened Calendar

  /** One customer record, its fields in the order the add dialog writes them. */
  datatype Customer = Customer(
    customerId: string,
    name: string,
    tenantName: string,
    customerAddress: string,
    customerGstin: string,
    email: string,
    phone: string,
    plan: string,
    installationDate: string,
    notes: string,
    createdDate: string,
    lastModified: string)

  /** What the add and edit dialogs hold when Save or Update is pressed. */
  datatype CustomerForm = CustomerForm(
    customerId: string,
    name: string,
    tenantName: string,
    customerAddress: string,
    customerGstin: string,
    email: string,
    phone: string,
    plan: string,
    installationDate: string,
    notes: string)

  /** Why a dialog refused to save. */
  datatype DirectoryError = FieldRequired(field: string) | DuplicateId | UnknownCustomer

  /** The values of a record, in key order. */
  function Values(c: Customer): seq<string>
  {
    [c.customerId, c.name, c.tenantName, c.customerAddress, c.customerGstin, c.email,
     c.phone, c.plan, c.installationDate, c.notes, c.createdDate, c.lastModified]
  }

  /** `cust[key]`: the value stored under a record key, None for an unknown key. */
  function FieldValue(c: Customer, key: string): (r: Option<string>)
    ensures r.Some? ==> r.value in Values(c)
  {
    if key == "customer_id" then Some(c.customerId)
    else if key == "name" then Some(c.name)
    else if key == "tenant_name" then Some(c.tenantName)
    else if key == "customer_address" then Some(c.customerAddress)
    else if key == "customer_gstin" then Some(c.customerGstin)
    else if key == "email" then Some(c.email)
    else if key == "phone" then Some(c.phone)
    else if key == "plan" then Some(c.plan)
    else if key == "installation_date" then Some(c.installationDate)
    else if key == "notes" then Some(c.notes)
    else if key == "created_date" then Some(c.createdDate)
    else if key == "last_modified" then Some(c.lastModified)
    else None
  }

  // ---------------------------------------------------------------------------
  // Lookup, upsert and delete

  predicate HasId(s: seq<Customer>, id: string)
  {
    exists i :: 0 <= i < |s| && s[i].customerId == id
  }

  /** The position of the first record with customer id `id`. */
  function FirstIndexOf(s: seq<Customer>, id: string): (r: Option<nat>)
    ensures r.None? <==> !HasId(s, id)
    ensures r.Some? ==> r.value < |s| && s[r.value].customerId == id
    ensures r.Some? ==> forall j :: 0 <= j < r.value ==> s[j].customerId != id
  {
    if s == [] then None
    else if s[0].customerId == id then Some(0)
    else
      match FirstIndexOf(s[1..], id)
      case None =>
        assert !HasId(s, id) by {
          forall i | 0 <= i < |s| ensures s[i].customerId != id {
            if i > 0 { assert s[i] == s[1..][i - 1]; }
          }
        }
        None
      case Some(k) => Some(k + 1)
  }

  /** Position `k` holds the first record with the id. */
  predicate FirstWithId(s: seq<Customer>, k: int, id: string)
  {
    0 <= k < |s| && s[k].customerId == id && forall j :: 0 <= j < k ==> s[j].customerId != id
  }

  /** The record `next(c for c in customers if c["customer_id"] == id)`. */
  function FindById(s: seq<Customer>, id: string): (r: Option<Customer>)
    ensures r.None? <==> !HasId(s, id)
    ensures r.Some? ==> r.value in s && r.value.customerId == id
    ensures r.Some? ==> exists k :: FirstWithId(s, k, id) && s[k] == r.value
  {
    match FirstIndexOf(s, id)
    case None => None
    case Some(k) =>
      assert FirstWithId(s, k, id);
      Some(s[k])
  }

  /** `save_customer_data`: the first record with the same customer id is
      replaced where it stands; with none, the record goes at the end. */
  function Upsert(s: seq<Customer>, c: Customer): (r: seq<Customer>)
    ensures |r| == if HasId(s, c.customerId) then |s| else |s| + 1
    ensures FindById(r, c.customerId) == Some(c)
    ensures forall i :: 0 <= i < |s| && FirstIndexOf(s, c.customerId) != Some(i) ==> r[i] == s[i]
    ensures FirstIndexOf(s, c.customerId).Some? ==> r[FirstIndexOf(s, c.customerId).value] == c
  {
    match FirstIndexOf(s, c.customerId)
    case None =>
      var r := s + [c];
      assert FirstIndexOf(r, c.customerId) == Some(|s|) by {
        assert r[|s|].customerId == c.customerId;
        assert forall j :: 0 <= j < |s| ==> r[j].customerId != c.customerId by {
          forall j | 0 <= j < |s| ensures r[j].customerId != c.customerId {
            assert r[j] == s[j];
          }
        }
      }
      r
    case Some(k) =>
      var r := s[k := c];
      assert FirstIndexOf(r, c.customerId) == Some(k) by {
        assert r[k] == c;
        assert forall j :: 0 <= j < k ==> r[j].customerId != c.customerId;
      }
      r
  }

  /** A new id goes at the end and nothing else moves. */
  lemma UpsertAppendsNewId(s: seq<Customer>, c: Customer)
    requires !HasId(s, c.customerId)
    ensures Upsert(s, c) == s + [c]
  {
    var r := Upsert(s, c);
    assert r[|s|] == c by {
      var k := FirstIndexOf(r, c.customerId).value;
      assert k == |s|;
    }
  }

  predicate UniqueIds(s: seq<Customer>)
  {
    forall i, j :: 0 <= i < j < |s| ==> s[i].customerId != s[j].customerId
  }

  /** When ids are unique, as the add dialog keeps them, an upsert keeps them so. */
  lemma UpsertKeepsIdsUnique(s: seq<Customer>, c: Customer)
    requires UniqueIds(s)
    ensures UniqueIds(Upsert(s, c))
  {
    var r := Upsert(s, c);
    match FirstIndexOf(s, c.customerId)
    case None =>
      UpsertAppendsNewId(s, c);
    case Some(k) =>
      forall i, j | 0 <= i < j < |r| ensures r[i].customerId != r[j].customerId {
        if i == k {
          assert r[j] == s[j];
        } else if j == k {
          assert r[i] == s[i];
        } else {
          assert r[i] == s[i] && r[j] == s[j];
        }
      }
  }

  /** `[c for c in customers if c["customer_id"] != id]`. */
  function Without(s: seq<Customer>, id: string): (r: seq<Customer>)
    ensures forall c :: c in r ==> c in s && c.customerId != id
    ensures forall c :: c in s && c.customerId != id ==> c in r
    ensures IsSubsequence(r, s)
    ensures !HasId(s, id) ==> r == s
  {
    if s == [] then []
    else
      var rest := Without(s[1..], id);
      HasIdCons(s, id);
      InHeadOrTail(s);
      if s[0].customerId == id then
        SubsequenceOfTail(rest, s);
        rest
      else
        var r := [s[0]] + rest;
        assert r[0] == s[0] && r[1..] == rest;
        InHeadOrTail(r);
        assert s == [s[0]] + s[1..];
        r
  }

  /** A non-empty directory has the id at its head or in its tail. */
  lemma HasIdCons(s: seq<Customer>, id: string)
    requires s != []
    ensures HasId(s, id) <==> s[0].customerId == id || HasId(s[1..], id)
  {
    if HasId(s[1..], id) {
      var i :| 0 <= i < |s[1..]| && s[1..][i].customerId == id;
      assert s[i + 1].customerId == id;
    }
    if HasId(s, id) && s[0].customerId != id {
      var i :| 0 <= i < |s| && s[i].customerId == id;
      assert s[1..][i - 1].customerId == id;
    }
  }

  /** Number of records with customer id `id`. */
  function CountId(s: seq<Customer>, id: string): nat
  {
    if s == [] then 0 else (if s[0].customerId == id then 1 else 0) + CountId(s[1..], id)
  }

  /** Delete removes exactly the records with that id. */
  lemma {:induction false} WithoutRemovesCount(s: seq<Customer>, id: string)
    ensures |Without(s, id)| + CountId(s, id) == |s|
    ensures !HasId(Without(s, id), id)
  {
    if s != [] {
      WithoutRemovesCount(s[1..], id);
    }
  }

  // ---------------------------------------------------------------------------
  // Search and autofill

  /** `any(search in str(value).lower() for value in customer.values())`. */
  predicate MatchesAnyValue(c: Customer, search: string)
  {
    exists i :: 0 <= i < 12 && Contains(Lower(Values(c)[i]), Lower(search))
  }

  /** The customers `filter_customers` shows, in directory order. */
  function Matching(s: seq<Customer>, search: string): (r: seq<Customer>)
    ensures IsSubsequence(r, s)
    ensures forall c :: c in r ==> MatchesAnyValue(c, search)
    ensures forall c :: c in s && MatchesAnyValue(c, search) ==> c in r
  {
    if s == [] then []
    else
      var rest := Matching(s[1..], search);
      assert forall c :: c in s ==> c == s[0] || c in s[1..] by {
        forall c | c in s ensures c == s[0] || c in s[1..] {
          var i :| 0 <= i < |s| && s[i] == c;
          if i > 0 { assert s[1..][i - 1] == c; }
        }
      }
      if MatchesAnyValue(s[0], search) then
        var r := [s[0]] + rest;
        assert r[1..] == rest;
        r
      else rest
  }

  /** Duplicate records are kept as often as they occur: each matching record
      is shown as many times as the directory holds it, any other never. */
  lemma {:induction false} MatchingKeepsDuplicates(s: seq<Customer>, search: string)
    ensures forall c :: multiset(Matching(s, search))[c] == if MatchesAnyValue(c, search) then multiset(s)[c] else 0
  {
    if s != [] {
      MatchingKeepsDuplicates(s[1..], search);
      assert s == [s[0]] + s[1..];
    }
  }

  /** An empty search box shows the whole directory. */
  lemma {:induction false} EmptySearchShowsAll(s: seq<Customer>)
    ensures Matching(s, "") == s
  {
    if s != [] {
      ContainsEmpty(Lower(Values(s[0])[0]));
      assert MatchesAnyValue(s[0], "");
      EmptySearchShowsAll(s[1..]);
      assert [s[0]] + s[1..] == s;
    }
  }

  /** The fields autofill copies into the invoice form. */
  const AutofillLabels: seq<string> :=
    ["Name", "Customer ID", "Tenant Name", "Customer Address", "Customer GSTIN", "Email"]

  /** `field.lower().replace(' ', '_')`: the record key for a form label. */
  function FieldKey(field: string): string
  {
    ReplaceChar(Lower(field), ' ', '_')
  }

  /** The text shown for a customer in the invoice form's customer list. */
  function DisplayName(c: Customer): string
  {
    c.name + " (" + c.customerId + ")"
  }

  /** The (label, value) pairs written into the form for one record: a label
      is filled when its key is in the record. */
  function Fills(c: Customer, labels: seq<string>): (r: seq<(string, string)>)
    ensures |r| <= |labels|
    ensures forall i :: 0 <= i < |r| ==> r[i].0 in labels && FieldValue(c, FieldKey(r[i].0)) == Some(r[i].1)
  {
    if labels == [] then []
    else
      (match FieldValue(c, FieldKey(labels[0]))
       case Some(v) => [(labels[0], v)]
       case None => []) + Fills(c, labels[1..])
  }

  /** A first label whose key holds `v` contributes the pair (label, v). */
  lemma FillsHead(c: Customer, labels: seq<string>, v: string)
    requires labels != [] && FieldValue(c, FieldKey(labels[0])) == Some(v)
    ensures Fills(c, labels) == [(labels[0], v)] + Fills(c, labels[1..])
  {
  }

  /** A label list whose every key is in the record is filled in full, in order. */
  lemma {:induction false} FillsEveryKnownKey(c: Customer, labels: seq<string>, keys: seq<string>, values: seq<string>)
    requires |labels| == |keys| == |values|
    requires forall i :: 0 <= i < |labels| ==> FieldKey(labels[i]) == keys[i]
    requires forall i :: 0 <= i < |keys| ==> FieldValue(c, keys[i]) == Some(values[i])
    ensures Fills(c, labels) == seq(|labels|, i requires 0 <= i < |labels| => (labels[i], values[i]))
  {
    if labels != [] {
      FillsHead(c, labels, values[0]);
      FillsEveryKnownKey(c, labels[1..], keys[1..], values[1..]);
    }
  }

  /** The label-to-key rule reaches the intended field for all six labels, so
      autofill fills each of them with the matching value of the record. */
  lemma AutofillFillsSixFields(c: Customer)
    ensures Fills(c, AutofillLabels) ==
      [("Name", c.name), ("Customer ID", c.customerId), ("Tenant Name", c.tenantName),
       ("Customer Address", c.customerAddress), ("Customer GSTIN", c.customerGstin),
       ("Email", c.email)]
  {
    var keys := AutofillKeys();
    var values := [c.name, c.customerId, c.tenantName, c.customerAddress, c.customerGstin, c.email];
    AutofillKeysMatch();
    AutofillValuesMatch(c);
    FillsEveryKnownKey(c, AutofillLabels, keys, values);
  }

  /** The record keys the six autofill labels are meant to reach. */
  function AutofillKeys(): seq<string>
  {
    ["name", "customer_id", "tenant_name", "customer_address", "customer_gstin", "email"]
  }

  /** Each autofill label turns into its intended key. */
  lemma AutofillKeysMatch()
    ensures forall i :: 0 <= i < 6 ==> FieldKey(AutofillLabels[i]) == AutofillKeys()[i]
  {
    NameKeysMatch();
    AddressKeysMatch();
  }

  lemma NameKeysMatch()
    ensures FieldKey("Name") == "name" && FieldKey("Customer ID") == "customer_id"
    ensures FieldKey("Tenant Name") == "tenant_name" && FieldKey("Email") == "email"
  {
    LabelKey("Name", "name");
    LabelKey("Customer ID", "customer_id");
    LabelKey("Tenant Name", "tenant_name");
    LabelKey("Email", "email");
  }

  lemma AddressKeysMatch()
    ensures FieldKey("Customer Address") == "customer_address"
    ensures FieldKey("Customer GSTIN") == "customer_gstin"
  {
    LabelKey("Customer Address", "customer_address");
    LabelKey("Customer GSTIN", "customer_gstin");
  }

  /** A label maps to `key` when they agree character by character. */
  lemma LabelKey(name: string, key: string)
    requires |name| == |key|
    requires forall i :: 0 <= i < |name| ==>
      key[i] == (if LowerChar(name[i]) == ' ' then '_' else LowerChar(name[i]))
    ensures FieldKey(name) == key
  {
  }

  /** Each intended key holds the matching value of the record. */
  lemma AutofillValuesMatch(c: Customer)
    ensures forall i :: 0 <= i < 6 ==>
      FieldValue(c, AutofillKeys()[i]) == Some([c.name, c.customerId, c.tenantName, c.customerAddress, c.customerGstin, c.email][i])
  {
    assert FieldValue(c, "name") == Some(c.name);
    assert FieldValue(c, "customer_id") == Some(c.customerId);
    assert FieldValue(c, "tenant_name") == Some(c.tenantName);
    assert FieldValue(c, "customer_address") == Some(c.customerAddress);
    assert FieldValue(c, "customer_gstin") == Some(c.customerGstin);
    assert FieldValue(c, "email") == Some(c.email);
  }

  /** Position `k` holds the first record whose display name is the selection. */
  predicate FirstShownAs(s: seq<Customer>, k: int, selected: string)
  {
    0 <= k < |s| && DisplayName(s[k]) == selected && forall j :: 0 <= j < k ==> DisplayName(s[j]) != selected
  }

  /** The first record whose display name is the selection. */
  function FirstNamed(s: seq<Customer>, selected: string): (r: Option<nat>)
    ensures r.Some? ==> r.value < |s| && DisplayName(s[r.value]) == selected
    ensures r.Some? ==> forall j :: 0 <= j < r.value ==> DisplayName(s[j]) != selected
    ensures r.None? ==> forall j :: 0 <= j < |s| ==> DisplayName(s[j]) != selected
  {
    if s == [] then None
    else if DisplayName(s[0]) == selected then Some(0)
    else
      match FirstNamed(s[1..], selected)
      case None =>
        assert forall j :: 1 <= j < |s| ==> s[j] == s[1..][j - 1];
        None
      case Some(k) => Some(k + 1)
  }

  /** What `autofill_customer_data` writes into the form: nothing for an
      empty selection or one no record shows, otherwise the fills of the
      first record shown that way. */
  function AutofillFor(s: seq<Customer>, selected: string): (r: Option<seq<(string, string)>>)
    ensures r.Some? ==> selected != ""
    ensures r.Some? ==> exists i :: FirstShownAs(s, i, selected) && r.value == Fills(s[i], AutofillLabels)
    ensures selected != "" && (exists i :: 0 <= i < |s| && DisplayName(s[i]) == selected) ==> r.Some?
  {
    if selected == "" then None
    else
      match FirstNamed(s, selected)
      case None => None
      case Some(k) =>
        assert FirstShownAs(s, k, selected);
        Some(Fills(s[k], AutofillLabels))
  }

  // ---------------------------------------------------------------------------
  // The dialogs

  /** The add dialog's required fields, in the order they are checked. */
  function AddRequired(f: CustomerForm): seq<(string, string)>
  {
    [("Customer ID", f.customerId), ("Name", f.name), ("Tenant Name", f.tenantName),
     ("Customer Address", f.customerAddress)]
  }

  /** The edit dialog's required fields; the id box there is read-only. */
  function EditRequired(f: CustomerForm): seq<(string, string)>
  {
    [("Name", f.name), ("Tenant Name", f.tenantName), ("Customer Address", f.customerAddress)]
  }

  /** The ten fields of a record that a dialog shows for editing. */
  function FormOf(c: Customer): CustomerForm
  {
    CustomerForm(c.customerId, c.name, c.tenantName, c.customerAddress, c.customerGstin, c.email,
                 c.phone, c.plan, c.installationDate, c.notes)
  }

  /** The record the add dialog saves: form values, both stamps set to now. */
  function NewCustomer(f: CustomerForm, now: Timestamp): (c: Customer)
    requires ValidTimestamp(now)
    ensures c.customerId == f.customerId && c.name == f.name
    ensures FormOf(c) == f
    ensures c.createdDate == c.lastModified && ParseStamp(c.createdDate) == Some(now)
  {
    ParseFormatStamp(now);
    Customer(f.customerId, f.name, f.tenantName, f.customerAddress, f.customerGstin, f.email,
             f.phone, f.plan, f.installationDate, f.notes, FormatStamp(now), FormatStamp(now))
  }

  /** The record the edit dialog saves: the stored id and creation stamp are
      kept, every other field comes from the form and the modification stamp
      is now. */
  function Edited(old_: Customer, f: CustomerForm, now: Timestamp): (c: Customer)
    requires ValidTimestamp(now)
    ensures c.customerId == old_.customerId && c.createdDate == old_.createdDate
    ensures ParseStamp(c.lastModified) == Some(now)
    ensures c.name == f.name && c.tenantName == f.tenantName && c.customerAddress == f.customerAddress
    ensures FormOf(c) == f.(customerId := old_.customerId)
  {
    ParseFormatStamp(now);
    Customer(old_.customerId, f.name, f.tenantName, f.customerAddress, f.customerGstin, f.email,
             f.phone, f.plan, f.installationDate, f.notes, old_.createdDate, FormatStamp(now))
  }

  /** Editing a found record replaces it where it stands: same length, the
      record's place holds the edited record, and no other record changes. */
  lemma EditReplacesInPlace(s: seq<Customer>, id: string, f: CustomerForm, now: Timestamp)
    requires ValidTimestamp(now) && HasId(s, id)
    ensures var k := FirstIndexOf(s, id).value;
      var r := Upsert(s, Edited(s[k], f, now));
      |r| == |s| && r[k] == Edited(s[k], f, now) &&
      forall i :: 0 <= i < |s| && i != k ==> r[i] == s[i]
  {
  }

  /** The customers JSON file. */
  class CustomerDirectory {
    var file: Stored<Customer>

    constructor (initial: Stored<Customer>)
      ensures file == initial
    {
      file := initial;
    }

    /** `load_customers`: the records, or none when the file is missing or unreadable. */
    function Customers(): seq<Customer>
      reads this
    {
      Loaded(file)
    }

    /** `save_customer_data`: upsert by id and write the whole list back. */
    method SaveCustomerData(c: Customer)
      modifies this
      ensures file == Present(Upsert(old(Customers()), c))
    {
      var customers := Customers();
      var found := false;
      var i := 0;
      while i < |customers|
        invariant 0 <= i <= |customers|
        invariant !found ==> customers == old(Customers())
        invariant !found ==> forall j :: 0 <= j < i ==> customers[j].customerId != c.customerId
        invariant found ==> customers == Upsert(old(Customers()), c)
      {
        if customers[i].customerId == c.customerId {
          assert FirstIndexOf(customers, c.customerId) == Some(i);
          customers := customers[i := c];
          found := true;
          break;
        }
        i := i + 1;
      }
      if !found {
        assert !HasId(customers, c.customerId);
        UpsertAppendsNewId(customers, c);
        customers := customers + [c];
      }
      file := Present(customers);
    }

    /** The add dialog's Save: required fields in order, then the id must be
      new; on success the record is appended with both stamps set to now. */
    method AddCustomer(f: CustomerForm, now: Timestamp) returns (r: Result<Customer, DirectoryError>)
      requires ValidTimestamp(now)
      modifies this
      ensures FirstEmpty(AddRequired(f)).Some? ==>
        r == Err(FieldRequired(FirstEmpty(AddRequired(f)).value)) && file == old(file)
      ensures FirstEmpty(AddRequired(f)).None? && HasId(old(Customers()), f.customerId) ==>
        r == Err(DuplicateId) && file == old(file)
      ensures FirstEmpty(AddRequired(f)).None? && !HasId(old(Customers()), f.customerId) ==>
        r == Ok(NewCustomer(f, now)) && file == Present(old(Customers()) + [NewCustomer(f, now)])
    {
      var missing := FirstEmpty(AddRequired(f));
      if missing.Some? {
        return Err(FieldRequired(missing.value));
      }
      var customers := Customers();
      var i := 0;
      while i < |customers|
        invariant 0 <= i <= |customers|
        invariant forall j :: 0 <= j < i ==> customers[j].customerId != f.customerId
      {
        if customers[i].customerId == f.customerId {
          return Err(DuplicateId);
        }
        i := i + 1;
      }
      var c := NewCustomer(f, now);
      UpsertAppendsNewId(customers, c);
      SaveCustomerData(c);
      r := Ok(c);
    }

    /** The edit dialog's Update for the record with id `id`: nothing happens
      when no record has that id; otherwise the required fields are checked
      and the first record with the id is replaced by the edited record. */
    method EditCustomer(id: string, f: CustomerForm, now: Timestamp) returns (r: Result<Customer, DirectoryError>)
      requires ValidTimestamp(now)
      modifies this
      ensures !HasId(old(Customers()), id) ==> r == Err(UnknownCustomer) && file == old(file)
      ensures HasId(old(Customers()), id) && FirstEmpty(EditRequired(f)).Some? ==>
        r == Err(FieldRequired(FirstEmpty(EditRequired(f)).value)) && file == old(file)
      ensures HasId(old(Customers()), id) && FirstEmpty(EditRequired(f)).None? ==>
        r == Ok(Edited(FindById(old(Customers()), id).value, f, now)) &&
        file == Present(Upsert(old(Customers()), r.value))
    {
      var existing := FindById(Customers(), id);
      if existing.None? {
        return Err(UnknownCustomer);
      }
      var missing := FirstEmpty(EditRequired(f));
      if missing.Some? {
        return Err(FieldRequired(missing.value));
      }
      var c := Edited(existing.value, f, now);
      SaveCustomerData(c);
      r := Ok(c);
    }

    /** The delete button: every record with the id goes, the rest stay in order. */
    method DeleteCustomer(id: string)
      modifies this
      ensures file == Present(Without(old(Customers()), id))
    {
      file := Present(Without(Customers(), id));
    }

    /** `filter_customers`: the records with the search text in some value. */
    method FilterCustomers(search: string) returns (shown: seq<Customer>)
      ensures shown == Matching(Customers(), search)
    {
      var customers := Customers();
      shown := [];
      var i := 0;
      while i < |customers|
        invariant 0 <= i <= |customers|
        invariant Matching(customers, search) == shown + Matching(customers[i..], search)
      {
        assert customers[i..][1..] == customers[i + 1..];
        if MatchesAnyValue(customers[i], search) {
          shown := shown + [customers[i]];
        }
        i := i + 1;
      }
    }

    /** `autofill_customer_data`: the (label, value) pairs written into the
      invoice form, None when the form is left as it is. */
    method AutofillCustomerData(selected: string) returns (fills: Option<seq<(string, string)>>)
      ensures fills == AutofillFor(Customers(), selected)
    {
      if selected == "" {
        return None;
      }
      var customers := Customers();
      fills := None;
      var i := 0;
      while i < |customers|
        invariant 0 <= i <= |customers|
        invariant forall j :: 0 <= j < i ==> DisplayName(customers[j]) != selected
      {
        if DisplayName(customers[i]) == selected {
          assert FirstNamed(customers, selected) == Some(i);
          fills := Some(Fills(customers[i], AutofillLabels));
          return;
        }
        i := i + 1;
      }
    }
  }
}
