/** The credit-card table component: search over every field of a card record, 10 rows per
    page, masked card number and CVV in the table and in the detail overlay. */
module CreditCardTable {
  import opened Wrappers
  import opened Text
  import Lists
  import Pager

  /** The columns the table shows, in order. */
  const Fields: seq<string> :=
    ["card_provider", "digits", "card_number", "card_expiry", "card_type", "cvv"]

  /** Some field value of the card, lower-cased, contains the lower-cased search term
      (`Object.values(item).some(...)`). */
  predicate CardMatches(term: string, card: Record): (b: bool)
    ensures b <==> exists k, i: nat :: k in card && i <= |card[k]| &&
                                       OccursAt(Lower(card[k]), Lower(term), i)
  {
    var b := exists k :: k in card && MatchesTerm(card[k], term);
    assert b ==> exists k, i: nat :: k in card && i <= |card[k]| &&
                                     OccursAt(Lower(card[k]), Lower(term), i) by {
      if b {
        var k :| k in card && MatchesTerm(card[k], term);
        var i: nat :| i <= |card[k]| && OccursAt(Lower(card[k]), Lower(term), i);
      }
    }
    assert (exists k, i: nat :: k in card && i <= |card[k]| &&
                                OccursAt(Lower(card[k]), Lower(term), i)) ==> b by {
      if exists k, i: nat :: k in card && i <= |card[k]| && OccursAt(Lower(card[k]), Lower(term), i) {
        var k, i: nat :| k in card && i <= |card[k]| && OccursAt(Lower(card[k]), Lower(term), i);
        assert MatchesTerm(card[k], term);
      }
    }
    b
  }

  /** `filteredData`. */
  function FilteredData(cards: seq<Record>, term: string): (r: seq<Record>)
    ensures forall c :: c in r <==> c in cards && CardMatches(term, c)
  {
    Lists.Filter(cards, c => CardMatches(term, c))
  }

  /** The filtered list keeps the order of the fetched cards. */
  lemma FilteredPreservesOrder(cards: seq<Record>, term: string)
    ensures Lists.IsSubsequence(FilteredData(cards, term), cards)
  {
    Lists.FilterIsSubsequence(cards, c => CardMatches(term, c));
  }

  /** With an empty search box every card that has at least one field is listed, in order. */
  lemma EmptyTermKeepsCards(cards: seq<Record>)
    requires forall i :: 0 <= i < |cards| ==> |cards[i]| > 0
    ensures FilteredData(cards, "") == cards
  {
    forall i | 0 <= i < |cards| ensures CardMatches("", cards[i]) {
      var k :| k in cards[i];
      EmptyTermMatches(cards[i][k]);
    }
    Lists.FilterKeepsAll(cards, c => CardMatches("", c));
  }

  /** `convertFieldName`: the header label of a field key. */
  function ConvertFieldName(field: string): (title: string)
    ensures field in Fields ==> title != field
    ensures field !in Fields ==> title == field
  {
    match field
    case "card_provider" => "Card Provider"
    case "card_number" => "Card Number"
    case "card_expiry" => "Card Expiry"
    case "card_type" => "Card Type"
    case "digits" => "Digits"
    case "cvv" => "CVV"
    case _ => field
  }

  /** The six table keys get their labels, in column order; any other key is its own label. */
  lemma ConvertFieldNameLabels(field: string)
    ensures field !in Fields ==> ConvertFieldName(field) == field
    ensures seq(|Fields|, i requires 0 <= i < |Fields| => ConvertFieldName(Fields[i])) ==
            ["Card Provider", "Digits", "Card Number", "Card Expiry", "Card Type", "CVV"]
  {
  }

  /** `maskSensitiveData(data, field)`. */
  function MaskSensitiveData(data: string, field: string): (r: string)
    ensures field == "card_number" ==> r == MaskCardNumber(data)
    ensures field == "cvv" ==> r == CvvMask
    ensures field != "card_number" && field != "cvv" ==> r == data
  {
    if field == "card_number" then MaskCardNumber(data)
    else if field == "cvv" then CvvMask
    else data
  }

  /** The CVV mask does not depend on the CVV; the card-number mask depends only on the last
      four characters; every other field passes through. */
  lemma MaskHidesSecrets(d1: string, d2: string, field: string)
    ensures field == "cvv" ==> MaskSensitiveData(d1, field) == MaskSensitiveData(d2, field)
    ensures field == "card_number" ==>
              (MaskSensitiveData(d1, field) == MaskSensitiveData(d2, field) <==> LastFour(d1) == LastFour(d2))
    ensures field != "card_number" && field != "cvv" ==>
              (MaskSensitiveData(d1, field) == MaskSensitiveData(d2, field) <==> d1 == d2)
  {
    MaskRevealsOnlyLastFour(d1, d2);
  }

  /** A card can be rendered: `maskSensitiveData` slices its card number. */
  predicate HasCardNumber(card: Record) { "card_number" in card }

  /** One table cell: only `card_number` and `cvv` go through the mask. */
  function CellText(card: Record, field: string): (t: string)
    requires field == "card_number" ==> HasCardNumber(card)
    ensures field == "card_number" ==> t == MaskCardNumber(card["card_number"])
    ensures field == "cvv" ==> t == CvvMask
    ensures field != "card_number" && field != "cvv" ==> t == FieldText(card, field)
  {
    if field in ["card_number", "cvv"] then MaskSensitiveData(FieldText(card, field), field)
    else FieldText(card, field)
  }

  /** The six cells of a row. */
  function RowCells(card: Record): (cells: seq<string>)
    requires HasCardNumber(card)
    ensures |cells| == |Fields|
    ensures forall i :: 0 <= i < |Fields| ==> cells[i] == CellText(card, Fields[i])
  {
    seq(|Fields|, i requires 0 <= i < |Fields| => CellText(card, Fields[i]))
  }

  /** A row shows the card number masked, `***` for the CVV, and the other four fields verbatim. */
  lemma RowMasking(card: Record)
    requires HasCardNumber(card)
    ensures var cells := RowCells(card);
            cells[2] == MaskCardNumber(card["card_number"]) && cells[5] == CvvMask &&
            cells[0] == FieldText(card, "card_provider") && cells[1] == FieldText(card, "digits") &&
            cells[3] == FieldText(card, "card_expiry") && cells[4] == FieldText(card, "card_type")
  {
    RowMasksSecrets(card);
    RowShowsPlainFields(card);
  }

  /** The card-number and CVV cells of a row. */
  lemma RowMasksSecrets(card: Record)
    requires HasCardNumber(card)
    ensures RowCells(card)[2] == MaskCardNumber(card["card_number"])
    ensures RowCells(card)[5] == CvvMask
  {
    var cells := RowCells(card);
    assert Fields[2] == "card_number" && Fields[5] == "cvv";
    assert cells[2] == CellText(card, Fields[2]) && cells[5] == CellText(card, Fields[5]);
  }

  /** The other four cells of a row. */
  lemma RowShowsPlainFields(card: Record)
    requires HasCardNumber(card)
    ensures RowCells(card)[0] == FieldText(card, "card_provider")
    ensures RowCells(card)[1] == FieldText(card, "digits")
    ensures RowCells(card)[3] == FieldText(card, "card_expiry")
    ensures RowCells(card)[4] == FieldText(card, "card_type")
  {
    CellTexts(card);
    RowCellIs(card, 0);
    RowCellIs(card, 1);
    RowCellIs(card, 3);
    RowCellIs(card, 4);
  }

  /** Cell i of a row is the cell text of the i-th table field, named by its literal. */
  lemma RowCellIs(card: Record, i: nat)
    requires HasCardNumber(card) && i < |Fields|
    ensures RowCells(card)[i] == CellText(card, ["card_provider", "digits", "card_number",
                                                 "card_expiry", "card_type", "cvv"][i])
  {
  }

  /** The four unmasked fields render through `FieldText`. */
  lemma CellTexts(card: Record)
    requires HasCardNumber(card)
    ensures CellText(card, "card_provider") == FieldText(card, "card_provider")
    ensures CellText(card, "digits") == FieldText(card, "digits")
    ensures CellText(card, "card_expiry") == FieldText(card, "card_expiry")
    ensures CellText(card, "card_type") == FieldText(card, "card_type")
    ensures CellText(card, "card_number") == MaskCardNumber(card["card_number"])
    ensures CellText(card, "cvv") == CvvMask
  {
    assert "card_expiry"[5] != "card_number"[5];
  }

  /** What the detail overlay shows for a selected card. */
  function CardDetail(card: Record): (lines: seq<Entry>)
    requires HasCardNumber(card)
    ensures |lines| == 6
    ensures lines[2] == Entry("Card Number", MaskCardNumber(card["card_number"]))
    ensures lines[5] == Entry("CVV", CvvMask)
    ensures lines[0] == Entry("Card Provider", FieldText(card, "card_provider"))
    ensures lines[1] == Entry("Digits", FieldText(card, "digits"))
    ensures lines[3] == Entry("Card Expiry", FieldText(card, "card_expiry"))
    ensures lines[4] == Entry("Card Type", FieldText(card, "card_type"))
  {
    [ Entry("Card Provider", FieldText(card, "card_provider")),
      Entry("Digits", FieldText(card, "digits")),
      Entry("Card Number", MaskSensitiveData(card["card_number"], "card_number")),
      Entry("Card Expiry", FieldText(card, "card_expiry")),
      Entry("Card Type", FieldText(card, "card_type")),
      Entry("CVV", MaskSensitiveData(FieldText(card, "cvv"), "cvv")) ]
  }

  /** The overlay never depends on the CVV. */
  lemma CardDetailHidesCvv(card: Record, cvv: string)
    requires HasCardNumber(card)
    ensures CardDetail(card["cvv" := cvv]) == CardDetail(card)
  {
    var c := card["cvv" := cvv];
    assert FieldText(c, "card_provider") == FieldText(card, "card_provider");
    assert FieldText(c, "digits") == FieldText(card, "digits");
    assert FieldText(c, "card_expiry") == FieldText(card, "card_expiry");
    assert FieldText(c, "card_type") == FieldText(card, "card_type");
  }

  /** The search box reads the raw CVV although the table and the overlay mask it: when only
      the CVV of a card contains the term, replacing that CVV by one that does not leaves the
      overlay as it was but drops the card from the filtered list. */
  lemma SearchDistinguishesCvv(card: Record, term: string, cvv: string)
    requires HasCardNumber(card)
    requires "cvv" in card && MatchesTerm(card["cvv"], term)
    requires !MatchesTerm(cvv, term)
    requires forall k :: k in card && k != "cvv" ==> !MatchesTerm(card[k], term)
    ensures CardDetail(card["cvv" := cvv]) == CardDetail(card)
    ensures CardMatches(term, card)
    ensures !CardMatches(term, card["cvv" := cvv])
  {
    CardDetailHidesCvv(card, cvv);
    var guessed := card["cvv" := cvv];
    assert forall k :: k in guessed ==> !MatchesTerm(guessed[k], term);
  }

  /** The overlay depends on the card number only through its last four characters. */
  lemma CardDetailHidesCardNumber(card: Record, number: string)
    requires HasCardNumber(card)
    requires LastFour(number) == LastFour(card["card_number"])
    ensures CardDetail(card["card_number" := number]) == CardDetail(card)
  {
    var d := card["card_number" := number];
    assert "card_expiry"[5] != "card_number"[5];
    assert FieldText(d, "card_provider") == FieldText(card, "card_provider");
    assert FieldText(d, "digits") == FieldText(card, "digits");
    assert FieldText(d, "card_expiry") == FieldText(card, "card_expiry");
    assert FieldText(d, "card_type") == FieldText(card, "card_type");
    assert FieldText(d, "cvv") == FieldText(card, "cvv");
    assert d["card_number"] == number;
    assert MaskCardNumber(number) == CardMaskPrefix + LastFour(card["card_number"]);
  }

  /** The outcome of the POST to the card endpoint. */
  datatype Response = Loaded(data: seq<Record>) | Failed

  /** The component's `useState` hooks. */
  class CreditCardTable {
    var cardData: seq<Record>
    var searchTerm: string
    var currentPage: int
    var isLoading: bool
    var error: Option<string>
    var isModalOpen: bool
    var selectedCard: Option<Record>
    /** The mount effect (empty dependency list) has issued its one fetch. */
    ghost var fetchStarted: bool

    ghost predicate Valid()
      reads this
    {
      (isModalOpen <==> selectedCard.Some?) &&
      (selectedCard.Some? ==> HasCardNumber(selectedCard.value)) &&
      (forall c :: c in cardData ==> HasCardNumber(c)) &&
      currentPage >= 1 &&
      (!fetchStarted ==> cardData == [] && currentPage == 1 && !isLoading && error == None) &&
      (isLoading ==> currentPage == 1 && error == None) &&
      (|Filtered()| > 0 ==> currentPage <= TotalPages())
    }

    function Filtered(): seq<Record>
      reads this
    {
      FilteredData(cardData, searchTerm)
    }

    function TotalPages(): nat
      reads this
    {
      Pager.TotalPages(|Filtered()|)
    }

    function CurrentRecords(): seq<Record>
      reads this
    {
      Pager.CurrentRecords(Filtered(), currentPage)
    }

    function Display(): Pager.Display
      reads this
    {
      Pager.Decide(isLoading, error, |Filtered()|)
    }

    /** In every reachable state exactly one of spinner, error, "No data available." and
        table shows, and a shown table has a non-empty current page. */
    lemma DisplayIsConsistent()
      requires Valid()
      ensures var d := Display();
              (if d.spinner then 1 else 0) + (if d.errorMessage then 1 else 0) +
              (if d.noData then 1 else 0) + (if d.table then 1 else 0) == 1
      ensures Display().table ==> 1 <= currentPage <= TotalPages() && |CurrentRecords()| > 0
    {
      Pager.ExactlyOneBlock(isLoading, error, |Filtered()|);
      if Display().table {
        Pager.PageNonEmptyIff(Filtered(), currentPage);
      }
    }

    /** The state on first render. */
    constructor ()
      ensures Valid() && !fetchStarted
      ensures cardData == [] && searchTerm == "" && currentPage == 1
      ensures !isLoading && error == None && !isModalOpen && selectedCard == None
    {
      cardData, searchTerm, currentPage := [], "", 1;
      isLoading, error := false, None;
      isModalOpen, selectedCard := false, None;
      fetchStarted := false;
    }

    /** `fetchCardData` up to its `await`: loading on, error cleared. */
    method FetchStart()
      requires Valid() && !fetchStarted
      modifies this
      ensures Valid() && fetchStarted
      ensures isLoading && error == None
      ensures cardData == old(cardData) && searchTerm == old(searchTerm)
      ensures currentPage == old(currentPage)
      ensures isModalOpen == old(isModalOpen) && selectedCard == old(selectedCard)
    {
      isLoading := true;
      error := None;
      fetchStarted := true;
    }

    /** The rest of `fetchCardData`: store the cards or the error message, then loading off.
        The endpoint's records always carry a card number. */
    method FetchFinish(response: Response)
      requires Valid() && isLoading
      requires response.Loaded? ==> forall c :: c in response.data ==> HasCardNumber(c)
      modifies this
      ensures Valid() && fetchStarted == old(fetchStarted) && !isLoading
      ensures response.Loaded? ==> cardData == response.data && error == None
      ensures response.Failed? ==> cardData == old(cardData) && error == Some(Pager.LoadError)
      ensures searchTerm == old(searchTerm) && currentPage == old(currentPage)
      ensures isModalOpen == old(isModalOpen) && selectedCard == old(selectedCard)
    {
      if response.Loaded? {
        cardData := response.data;
      } else {
        error := Some(Pager.LoadError);
      }
      isLoading := false;
      Pager.PageNonEmptyIff(Filtered(), 1);
    }

    /** `handleSearch`: store the term and go back to page 1. */
    method HandleSearch(term: string)
      requires Valid()
      modifies this
      ensures Valid() && fetchStarted == old(fetchStarted)
      ensures searchTerm == term && currentPage == 1
      ensures cardData == old(cardData) && isLoading == old(isLoading) && error == old(error)
      ensures isModalOpen == old(isModalOpen) && selectedCard == old(selectedCard)
    {
      searchTerm := term;
      currentPage := 1;
      Pager.PageNonEmptyIff(Filtered(), 1);
    }

    /** `openModal(card)`, reached from a row's "View Details" button. */
    method OpenModal(card: Record)
      requires Valid() && card in CurrentRecords()
      modifies this
      ensures Valid() && fetchStarted == old(fetchStarted)
      ensures selectedCard == Some(card) && isModalOpen
      ensures cardData == old(cardData) && searchTerm == old(searchTerm)
      ensures currentPage == old(currentPage) && isLoading == old(isLoading) && error == old(error)
    {
      selectedCard := Some(card);
      isModalOpen := true;
    }

    /** `closeModal`: clear the selection and close the overlay. */
    method CloseModal()
      requires Valid()
      modifies this
      ensures Valid() && fetchStarted == old(fetchStarted)
      ensures selectedCard == None && !isModalOpen
      ensures cardData == old(cardData) && searchTerm == old(searchTerm)
      ensures currentPage == old(currentPage) && isLoading == old(isLoading) && error == old(error)
    {
      selectedCard := None;
      isModalOpen := false;
    }

    /** The overlay's contents: nothing unless a card is selected. */
    function ModalContents(): (lines: seq<Entry>)
      requires Valid()
      reads this
      ensures isModalOpen ==> lines == CardDetail(selectedCard.value)
      ensures !isModalOpen ==> lines == []
    {
      if selectedCard.Some? then CardDetail(selectedCard.value) else []
    }

    /** The Previous button, shown with the table. */
    method PreviousPage()
      requires Valid() && Display().table
      modifies this
      ensures Valid() && fetchStarted == old(fetchStarted)
      ensures currentPage == Pager.PreviousPage(old(currentPage))
      ensures 1 <= currentPage <= TotalPages()
      ensures cardData == old(cardData) && searchTerm == old(searchTerm)
      ensures isLoading == old(isLoading) && error == old(error)
      ensures isModalOpen == old(isModalOpen) && selectedCard == old(selectedCard)
    {
      currentPage := Pager.PreviousPage(currentPage);
    }

    /** The Next button, shown with the table. */
    method NextPage()
      requires Valid() && Display().table
      modifies this
      ensures Valid() && fetchStarted == old(fetchStarted)
      ensures currentPage == Pager.NextPage(old(currentPage), TotalPages())
      ensures 1 <= currentPage <= TotalPages()
      ensures cardData == old(cardData) && searchTerm == old(searchTerm)
      ensures isLoading == old(isLoading) && error == old(error)
      ensures isModalOpen == old(isModalOpen) && selectedCard == old(selectedCard)
    {
      currentPage := Pager.NextPage(currentPage, TotalPages());
    }
  }
}
