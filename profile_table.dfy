/** The profile table component: search restricted to the server-supplied columns, 10 rows
    per page, four fixed columns in the table, and a detail overlay that masks both card
    numbers and both CVVs. */
module ProfileTable {
  import opened Wrappers
  import opened Text
  import Lists
  import Pager

  /** A column descriptor from the profile endpoint. */
  datatype Column = Column(field: string, headerName: string)

  /** The fields the table body shows, in order. */
  const TableFields: seq<string> := ["first_name", "last_name", "sex", "dob"]

  /** `item[col.field]` is truthy and, lower-cased, contains the lower-cased term. */
  predicate ColumnMatches(term: string, item: Record, col: Column): (b: bool)
    ensures b <==> col.field in item && item[col.field] != "" &&
                   exists i: nat :: i <= |item[col.field]| &&
                                    OccursAt(Lower(item[col.field]), Lower(term), i)
  {
    if col.field in item && item[col.field] != "" then
      var v := item[col.field];
      var m := MatchesTerm(v, term);
      assert m ==> exists i: nat :: i <= |v| && OccursAt(Lower(v), Lower(term), i) by {
        if m {
          var i: nat :| i <= |v| && OccursAt(Lower(v), Lower(term), i);
        }
      }
      m
    else false
  }

  /** `columns.some(...)`. */
  predicate ProfileMatches(columns: seq<Column>, term: string, item: Record): (b: bool)
    ensures b <==> exists c :: c in columns && ColumnMatches(term, item, c)
  {
    exists i :: 0 <= i < |columns| && ColumnMatches(term, item, columns[i])
  }

  /** `filteredData`. */
  function FilteredData(profiles: seq<Record>, columns: seq<Column>, term: string): (r: seq<Record>)
    ensures forall p :: p in r <==> p in profiles && ProfileMatches(columns, term, p)
  {
    Lists.Filter(profiles, p => ProfileMatches(columns, term, p))
  }

  /** The filtered list keeps the order of the fetched profiles. */
  lemma FilteredPreservesOrder(profiles: seq<Record>, columns: seq<Column>, term: string)
    ensures Lists.IsSubsequence(FilteredData(profiles, columns, term), profiles)
  {
    Lists.FilterIsSubsequence(profiles, p => ProfileMatches(columns, term, p));
  }

  /** Without column descriptors nothing is listed, whatever the search term. */
  lemma NoColumnsNoRows(profiles: seq<Record>, term: string)
    ensures FilteredData(profiles, [], term) == []
  {
    Lists.FilterKeepsNone(profiles, p => ProfileMatches([], term, p));
  }

  /** With an empty search box a profile is listed iff some described column holds a
      non-empty value: empty or absent fields never match. */
  lemma EmptyTermKeepsFilledProfiles(profiles: seq<Record>, columns: seq<Column>)
    ensures forall p :: p in FilteredData(profiles, columns, "") <==>
              p in profiles &&
              exists i :: 0 <= i < |columns| && columns[i].field in p && p[columns[i].field] != ""
  {
    forall p, i | 0 <= i < |columns| && columns[i].field in p
      ensures ColumnMatches("", p, columns[i]) <==> p[columns[i].field] != ""
    {
      EmptyTermMatches(p[columns[i].field]);
    }
  }

  predicate IsTableColumn(col: Column) { col.field in TableFields }

  /** The `headerName` of every descriptor, in order. */
  function HeaderNames(columns: seq<Column>): (names: seq<string>)
    ensures |names| == |columns|
    ensures forall i :: 0 <= i < |columns| ==> names[i] == columns[i].headerName
  {
    seq(|columns|, i requires 0 <= i < |columns| => columns[i].headerName)
  }

  /** Each shown descriptor is a table-field descriptor taken from `columns`. */
  lemma HeaderWitness(columns: seq<Column>, shown: seq<Column>, i: int)
    requires shown == Lists.Filter(columns, IsTableColumn) && 0 <= i < |shown|
    ensures shown[i] in columns && IsTableColumn(shown[i])
  {
  }

  /** The header row: `columns.filter(...)` on the four table fields, then `headerName`.
      Each header is the `headerName` of a descriptor for a table field. */
  function HeaderLabels(columns: seq<Column>): (labels: seq<string>)
    ensures |labels| <= |columns|
    ensures forall i :: 0 <= i < |labels| ==>
              exists c :: c in columns && IsTableColumn(c) && labels[i] == c.headerName
  {
    var shown := Lists.Filter(columns, IsTableColumn);
    var labels := HeaderNames(shown);
    assert forall i :: 0 <= i < |labels| ==>
             shown[i] in columns && IsTableColumn(shown[i]) && labels[i] == shown[i].headerName by {
      forall i | 0 <= i < |labels|
        ensures shown[i] in columns && IsTableColumn(shown[i]) && labels[i] == shown[i].headerName
      {
        HeaderWitness(columns, shown, i);
      }
    }
    labels
  }

  /** Every descriptor for one of the four table fields gives a header. */
  lemma HeaderLabelsComplete(columns: seq<Column>)
    ensures forall c :: c in columns && IsTableColumn(c) ==> c.headerName in HeaderLabels(columns)
  {
    var shown := Lists.Filter(columns, IsTableColumn);
    forall c | c in columns && IsTableColumn(c) ensures c.headerName in HeaderLabels(columns) {
      var j :| 0 <= j < |columns| && columns[j] == c;
      assert c in shown;
      var k :| 0 <= k < |shown| && shown[k] == c;
      assert HeaderLabels(columns)[k] == c.headerName;
    }
  }

  /** `HeaderNames` on a non-empty list: the first name, then the names of the rest. */
  lemma HeaderNamesTail(columns: seq<Column>)
    requires columns != []
    ensures HeaderNames(columns)[0] == columns[0].headerName
    ensures HeaderNames(columns)[1..] == HeaderNames(columns[1..])
  {
  }

  /** `HeaderLabels` on a non-empty list: the first descriptor's name if it is a table
      field, then the headers of the rest. */
  lemma HeaderLabelsStep(columns: seq<Column>)
    requires columns != []
    ensures IsTableColumn(columns[0]) ==>
              HeaderLabels(columns) == [columns[0].headerName] + HeaderLabels(columns[1..])
    ensures !IsTableColumn(columns[0]) ==> HeaderLabels(columns) == HeaderLabels(columns[1..])
  {
    var rest := Lists.Filter(columns[1..], IsTableColumn);
    if IsTableColumn(columns[0]) {
      assert Lists.Filter(columns, IsTableColumn) == [columns[0]] + rest;
      HeaderNamesTail([columns[0]] + rest);
      assert ([columns[0]] + rest)[1..] == rest;
    }
  }

  /** The headers keep the order of the descriptors they come from. */
  lemma {:induction false} HeaderLabelsInDescriptorOrder(columns: seq<Column>)
    ensures Lists.IsSubsequence(HeaderLabels(columns), HeaderNames(columns))
  {
    if columns != [] {
      HeaderLabelsInDescriptorOrder(columns[1..]);
      HeaderNamesTail(columns);
      HeaderLabelsStep(columns);
      var rest := HeaderLabels(columns[1..]);
      if IsTableColumn(columns[0]) {
        assert HeaderLabels(columns)[1..] == rest;
      }
    }
  }

  /** One row of the table body: the four fixed fields, verbatim, in a fixed order. */
  function RowCells(item: Record): (cells: seq<string>)
    ensures |cells| == |TableFields|
    ensures forall i :: 0 <= i < |TableFields| ==> cells[i] == FieldText(item, TableFields[i])
  {
    seq(|TableFields|, i requires 0 <= i < |TableFields| => FieldText(item, TableFields[i]))
  }

  /** A row reads nothing but the four table fields: changing any other field, a card number
      or a CVV among them, leaves the row as it was. */
  lemma RowCellsReadOnlyTableFields(item: Record, key: string, value: string)
    requires key !in TableFields
    ensures RowCells(item[key := value]) == RowCells(item)
  {
    forall i | 0 <= i < |TableFields| ensures RowCells(item[key := value])[i] == RowCells(item)[i] {
      assert TableFields[i] != key;
    }
  }

  /** The header cells and the body cells line up only when the descriptors list exactly the
      four table fields in table order: descriptors `[dob, first_name]` give two headers,
      "DOB" over the first-name column and "First" over the last-name column. */
  lemma HeaderMisalignedExample(item: Record)
    ensures var columns := [Column("dob", "DOB"), Column("first_name", "First")];
            HeaderLabels(columns) == ["DOB", "First"] &&
            |RowCells(item)| == 4 &&
            RowCells(item)[0] == FieldText(item, "first_name")
  {
    var columns := [Column("dob", "DOB"), Column("first_name", "First")];
    assert IsTableColumn(columns[0]) && IsTableColumn(columns[1]);
    assert Lists.Filter(columns, IsTableColumn) == columns;
  }

  /** The first descriptor for `field`, if any. */
  function DescriptorFor(columns: seq<Column>, field: string): (r: Option<Column>)
    ensures r.Some? ==> r.value in columns && r.value.field == field
    ensures r.None? ==> forall c :: c in columns ==> c.field != field
  {
    if columns == [] then None
    else if columns[0].field == field then Some(columns[0])
    else DescriptorFor(columns[1..], field)
  }

  /** A header row aligned with the body: one header per table field, in table order, taken
      from that field's descriptor, or the field key when the server sent none. */
  function AlignedHeaderLabels(columns: seq<Column>): (labels: seq<string>)
    ensures |labels| == |TableFields|
    ensures forall i :: 0 <= i < |TableFields| ==>
              match DescriptorFor(columns, TableFields[i])
              case Some(c) => labels[i] == c.headerName
              case None => labels[i] == TableFields[i]
  {
    seq(|TableFields|, i requires 0 <= i < |TableFields| =>
      match DescriptorFor(columns, TableFields[i])
      case Some(c) => c.headerName
      case None => TableFields[i])
  }

  /** Aligned headers: header i names the column of cell i, for every profile. */
  lemma AlignedHeadersMatchCells(columns: seq<Column>, item: Record)
    ensures |AlignedHeaderLabels(columns)| == |RowCells(item)|
    ensures forall i :: 0 <= i < |TableFields| ==>
              RowCells(item)[i] == FieldText(item, TableFields[i]) &&
              ((exists c :: c in columns && c.field == TableFields[i]) ==>
                 exists c :: c in columns && c.field == TableFields[i] &&
                             AlignedHeaderLabels(columns)[i] == c.headerName)
  {
  }

  /** A run of overlay lines that show fields verbatim: (caption, field key) pairs. */
  type Layout = seq<(string, string)>

  /** "Personal Information". */
  const PersonalLayout: Layout :=
    [("First Name", "first_name"), ("Last Name", "last_name"), ("Gender", "sex"),
     ("Date of Birth", "dob"), ("Father's Name", "father_name"),
     ("Nationality", "nationality"), ("Passport Type", "passport_type")]

  /** "Identification Documents". */
  const DocumentsLayout: Layout :=
    [("Aadhar", "aadhar"), ("PAN Number", "pan_number"), ("PAN Status", "pan_status"),
     ("Driving Licence Number", "driving_licence_number"),
     ("Driving Licence Issue Date", "driving_licence_date_of_issue"),
     ("Driving Licence Expiry Date", "driving_licence_date_of_expiry"),
     ("Passport Number", "passport_number"), ("Passport Issue Date", "passport_date_of_issue"),
     ("Passport Expiry Date", "passport_date_of_expiry")]

  /** "Address". */
  const AddressLayout: Layout := [("Address", "address")]

  /** The lines of a verbatim run for one profile. */
  function Verbatim(layout: Layout, user: Record): (lines: seq<Entry>)
    ensures |lines| == |layout|
    ensures forall i :: 0 <= i < |layout| ==>
              lines[i] == Entry(layout[i].0, FieldText(user, layout[i].1))
  {
    seq(|layout|, i requires 0 <= i < |layout| => Entry(layout[i].0, FieldText(user, layout[i].1)))
  }

  function Keys(layout: Layout): (keys: seq<string>)
    ensures |keys| == |layout| && forall i :: 0 <= i < |layout| ==> keys[i] == layout[i].1
  {
    seq(|layout|, i requires 0 <= i < |layout| => layout[i].1)
  }

  /** A verbatim run only depends on the fields it names. */
  lemma VerbatimReadsOnlyItsKeys(layout: Layout, user: Record, key: string, value: string)
    requires key !in Keys(layout)
    ensures Verbatim(layout, user[key := value]) == Verbatim(layout, user)
  {
    forall i | 0 <= i < |layout|
      ensures Verbatim(layout, user[key := value])[i] == Verbatim(layout, user)[i]
    {
      assert Keys(layout)[i] != key;
    }
  }

  /** The overlay reads `.slice(-4)` of both card numbers. */
  predicate HasCardNumbers(user: Record)
  {
    "credit_card_number" in user && "debit_card_number" in user
  }

  /** The fields the financial section shows verbatim. */
  const FinancialVerbatimKeys: seq<string> :=
    ["credit_card_expiry", "credit_card_provider", "debit_card_expiry", "debit_card_provider"]

  /** "Financial Information": both card numbers masked to their last four characters, both
      CVVs shown as the fixed mask without reading any CVV field. */
  function FinancialSection(user: Record): (lines: seq<Entry>)
    requires HasCardNumbers(user)
    ensures |lines| == 8
    ensures lines[0] == Entry("Credit Card Number", MaskCardNumber(user["credit_card_number"]))
    ensures lines[1] == Entry("Credit Card CVV", CvvMask)
    ensures lines[4] == Entry("Debit Card Number", MaskCardNumber(user["debit_card_number"]))
    ensures lines[5] == Entry("Debit Card CVV", CvvMask)
  {
    var credit := CardMaskPrefix + LastFour(user["credit_card_number"]);
    var debit := CardMaskPrefix + LastFour(user["debit_card_number"]);
    [ Entry("Credit Card Number", credit),
      Entry("Credit Card CVV", CvvMask),
      Entry("Credit Card Expiry", FieldText(user, "credit_card_expiry")),
      Entry("Credit Card Provider", FieldText(user, "credit_card_provider")),
      Entry("Debit Card Number", debit),
      Entry("Debit Card CVV", CvvMask),
      Entry("Debit Card Expiry", FieldText(user, "debit_card_expiry")),
      Entry("Debit Card Provider", FieldText(user, "debit_card_provider")) ]
  }

  /** What the detail overlay shows for a selected profile: the four sections in order. */
  function ProfileDetail(user: Record): (lines: seq<Entry>)
    requires HasCardNumbers(user)
    ensures |lines| == 25
    ensures lines[..7] == Verbatim(PersonalLayout, user)
    ensures lines[7..16] == Verbatim(DocumentsLayout, user)
    ensures lines[16..24] == FinancialSection(user)
    ensures lines[24..] == Verbatim(AddressLayout, user)
  {
    var personal, documents := Verbatim(PersonalLayout, user), Verbatim(DocumentsLayout, user);
    var financial, address := FinancialSection(user), Verbatim(AddressLayout, user);
    Lists.ConcatParts(personal, documents, financial, address);
    personal + documents + financial + address
  }

  /** Every field the overlay shows to the letter. */
  function VerbatimKeys(): seq<string>
  {
    Keys(PersonalLayout) + Keys(DocumentsLayout) + FinancialVerbatimKeys + Keys(AddressLayout)
  }

  /** The overlay depends on nothing but its verbatim fields and the last four characters of
      each card number: changing any other field (every CVV among them) leaves it as it
      was, and so does replacing a card number by one with the same last four. */
  lemma ProfileDetailHidesSecrets(user: Record, key: string, value: string)
    requires HasCardNumbers(user)
    requires key !in VerbatimKeys()
    requires key == "credit_card_number" || key == "debit_card_number" ==>
               LastFour(value) == LastFour(user[key])
    ensures ProfileDetail(user[key := value]) == ProfileDetail(user)
  {
    var u := user[key := value];
    assert key !in Keys(PersonalLayout) && key !in Keys(DocumentsLayout) &&
           key !in FinancialVerbatimKeys && key !in Keys(AddressLayout);
    VerbatimReadsOnlyItsKeys(PersonalLayout, user, key, value);
    VerbatimReadsOnlyItsKeys(DocumentsLayout, user, key, value);
    VerbatimReadsOnlyItsKeys(AddressLayout, user, key, value);
    FinancialSectionHidesSecrets(user, key, value);
  }

  lemma FinancialSectionHidesSecrets(user: Record, key: string, value: string)
    requires HasCardNumbers(user)
    requires key !in FinancialVerbatimKeys
    requires key == "credit_card_number" || key == "debit_card_number" ==>
               LastFour(value) == LastFour(user[key])
    ensures FinancialSection(user[key := value]) == FinancialSection(user)
  {
    var u := user[key := value];
    assert FieldText(u, "credit_card_expiry") == FieldText(user, "credit_card_expiry");
    assert FieldText(u, "credit_card_provider") == FieldText(user, "credit_card_provider");
    assert FieldText(u, "debit_card_expiry") == FieldText(user, "debit_card_expiry");
    assert FieldText(u, "debit_card_provider") == FieldText(user, "debit_card_provider");
    assert LastFour(u["credit_card_number"]) == LastFour(user["credit_card_number"]);
    assert LastFour(u["debit_card_number"]) == LastFour(user["debit_card_number"]);
  }

  /** The outcome of the POST to the profile endpoint. */
  datatype Response = Loaded(data: seq<Record>, columns: seq<Column>) | Failed

  /** The component's `useState` hooks. */
  class ProfileTable {
    var profileData: seq<Record>
    var columns: seq<Column>
    var searchTerm: string
    var currentPage: int
    var isLoading: bool
    var error: Option<string>
    var isModalOpen: bool
    var selectedUser: Option<Record>
    /** The mount effect (empty dependency list) has issued its one fetch. */
    ghost var fetchStarted: bool

    ghost predicate Valid()
      reads this
    {
      (isModalOpen <==> selectedUser.Some?) &&
      (selectedUser.Some? ==> HasCardNumbers(selectedUser.value)) &&
      (forall p :: p in profileData ==> HasCardNumbers(p)) &&
      currentPage >= 1 &&
      (!fetchStarted ==> profileData == [] && columns == [] && currentPage == 1 && !isLoading && error == None) &&
      (isLoading ==> currentPage == 1 && error == None) &&
      (|Filtered()| > 0 ==> currentPage <= TotalPages())
    }

    function Filtered(): seq<Record>
      reads this
    {
      FilteredData(profileData, columns, searchTerm)
    }

    function TotalPages(): nat
      reads this
    {
      Pager.TotalPages(|Filtered()|)
    }

    function CurrentRecords(): seq<Record>
      reads this
    {
      Pager.CurrentRecords(Filtered(), currentPage)
    }

    function Display(): Pager.Display
      reads this
    {
      Pager.Decide(isLoading, error, |Filtered()|)
    }

    /** In every reachable state exactly one of spinner, error, "No data available." and
        table shows, and a shown table has a non-empty current page. */
    lemma DisplayIsConsistent()
      requires Valid()
      ensures var d := Display();
              (if d.spinner then 1 else 0) + (if d.errorMessage then 1 else 0) +
              (if d.noData then 1 else 0) + (if d.table then 1 else 0) == 1
      ensures Display().table ==> 1 <= currentPage <= TotalPages() && |CurrentRecords()| > 0
    {
      Pager.ExactlyOneBlock(isLoading, error, |Filtered()|);
      if Display().table {
        Pager.PageNonEmptyIff(Filtered(), currentPage);
      }
    }

    /** The state on first render. */
    constructor ()
      ensures Valid() && !fetchStarted
      ensures profileData == [] && columns == [] && searchTerm == "" && currentPage == 1
      ensures !isLoading && error == None && !isModalOpen && selectedUser == None
    {
      profileData, columns, searchTerm, currentPage := [], [], "", 1;
      isLoading, error := false, None;
      isModalOpen, selectedUser := false, None;
      fetchStarted := false;
    }

    /** `fetchProfileData` up to its `await`: loading on, error cleared. */
    method FetchStart()
      requires Valid() && !fetchStarted
      modifies this
      ensures Valid() && fetchStarted
      ensures isLoading && error == None
      ensures profileData == old(profileData) && columns == old(columns)
      ensures searchTerm == old(searchTerm) && currentPage == old(currentPage)
      ensures isModalOpen == old(isModalOpen) && selectedUser == old(selectedUser)
    {
      isLoading := true;
      error := None;
      fetchStarted := true;
    }

    /** The rest of `fetchProfileData`: store the profiles and columns or the error message,
        then loading off. The endpoint's profiles always carry both card numbers. */
    method FetchFinish(response: Response)
      requires Valid() && isLoading
      requires response.Loaded? ==> forall p :: p in response.data ==> HasCardNumbers(p)
      modifies this
      ensures Valid() && fetchStarted == old(fetchStarted) && !isLoading
      ensures response.Loaded? ==>
                profileData == response.data && columns == response.columns && error == None
      ensures response.Failed? ==>
                profileData == old(profileData) && columns == old(columns) && error == Some(Pager.LoadError)
      ensures searchTerm == old(searchTerm) && currentPage == old(currentPage)
      ensures isModalOpen == old(isModalOpen) && selectedUser == old(selectedUser)
    {
      if response.Loaded? {
        profileData := response.data;
        columns := response.columns;
      } else {
        error := Some(Pager.LoadError);
      }
      isLoading := false;
      Pager.PageNonEmptyIff(Filtered(), 1);
    }

    /** `handleSearch`: store the term and go back to page 1. */
    method HandleSearch(term: string)
      requires Valid()
      modifies this
      ensures Valid() && fetchStarted == old(fetchStarted)
      ensures searchTerm == term && currentPage == 1
      ensures profileData == old(profileData) && columns == old(columns)
      ensures isLoading == old(isLoading) && error == old(error)
      ensures isModalOpen == old(isModalOpen) && selectedUser == old(selectedUser)
    {
      searchTerm := term;
      currentPage := 1;
      Pager.PageNonEmptyIff(Filtered(), 1);
    }

    /** `openModal(user)`, reached from a row's "View Details" button. */
    method OpenModal(user: Record)
      requires Valid() && user in CurrentRecords()
      modifies this
      ensures Valid() && fetchStarted == old(fetchStarted)
      ensures selectedUser == Some(user) && isModalOpen
      ensures profileData == old(profileData) && columns == old(columns)
      ensures searchTerm == old(searchTerm) && currentPage == old(currentPage)
      ensures isLoading == old(isLoading) && error == old(error)
    {
      selectedUser := Some(user);
      isModalOpen := true;
    }

    /** `closeModal`: clear the selection and close the overlay. */
    method CloseModal()
      requires Valid()
      modifies this
      ensures Valid() && fetchStarted == old(fetchStarted)
      ensures selectedUser == None && !isModalOpen
      ensures profileData == old(profileData) && columns == old(columns)
      ensures searchTerm == old(searchTerm) && currentPage == old(currentPage)
      ensures isLoading == old(isLoading) && error == old(error)
    {
      selectedUser := None;
      isModalOpen := false;
    }

    /** The overlay's contents: nothing unless a profile is selected. */
    function ModalContents(): (lines: seq<Entry>)
      requires Valid()
      reads this
      ensures isModalOpen ==> lines == ProfileDetail(selectedUser.value)
      ensures !isModalOpen ==> lines == []
    {
      if selectedUser.Some? then ProfileDetail(selectedUser.value) else []
    }

    /** The Previous button, shown with the table. */
    method PreviousPage()
      requires Valid() && Display().table
      modifies this
      ensures Valid() && fetchStarted == old(fetchStarted)
      ensures currentPage == Pager.PreviousPage(old(currentPage))
      ensures 1 <= currentPage <= TotalPages()
      ensures profileData == old(profileData) && columns == old(columns) && searchTerm == old(searchTerm)
      ensures isLoading == old(isLoading) && error == old(error)
      ensures isModalOpen == old(isModalOpen) && selectedUser == old(selectedUser)
    {
      currentPage := Pager.PreviousPage(currentPage);
    }

    /** The Next button, shown with the table. */
    method NextPage()
      requires Valid() && Display().table
      modifies this
      ensures Valid() && fetchStarted == old(fetchStarted)
      ensures currentPage == Pager.NextPage(old(currentPage), TotalPages())
      ensures 1 <= currentPage <= TotalPages()
      ensures profileData == old(profileData) && columns == old(columns) && searchTerm == old(searchTerm)
      ensures isLoading == old(isLoading) && error == old(error)
      ensures isModalOpen == old(isModalOpen) && selectedUser == old(selectedUser)
    {
      currentPage := Pager.NextPage(currentPage, TotalPages());
    }
  }
}
