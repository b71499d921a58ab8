/** The address selection modal (src/components/AddressSelectionModal.tsx): its add and edit
    forms, the choice of a suggestion from the address search, and the highlighting of the
    selected address. The search itself (a debounced call to a third-party address service) is
    not modelled; its list of suggestions is a field the modal clears. */
module AddressModal {
  import opened Wrappers
  import opened Seqs
  import opened Types
  import opened DialogProvider

  /** The properties of a search result the modal reads. */
  datatype Suggestion = Suggestion(caption: string, name: string, city: string, postcode: string)

  /** The add form as it starts and as every reset leaves it. */
  const EmptyForm: AddressFields := AddressFields("", "", "", "France")

  /** The fields a chosen suggestion fills in: its name as the street, its city and postcode, and
      France as the country. */
  function FromSuggestion(s: Suggestion): (f: AddressFields)
    ensures f.street == s.name && f.city == s.city && f.postalCode == s.postcode
    ensures f.country == EmptyForm.country
  {
    AddressFields(s.name, s.city, s.postcode, "France")
  }

  /** The check both forms apply: street, city and postal code filled in; the country is free. */
  predicate Complete(street: string, city: string, postalCode: string)
  {
    street != "" && city != "" && postalCode != ""
  }

  /** What "Ajouter" hands to the address book: the form, if complete. */
  function Submitted(fields: AddressFields): (r: Option<AddressFields>)
    ensures r.Some? <==> fields.street != "" && fields.city != "" && fields.postalCode != ""
    ensures r.Some? ==> r.value == fields
  {
    if Complete(fields.street, fields.city, fields.postalCode) then Some(fields) else None
  }

  /** The empty form is refused, and the country never decides. */
  lemma SubmissionIgnoresCountry(fields: AddressFields, country: string)
    ensures Submitted(EmptyForm).None?
    ensures Submitted(fields.(country := country)).Some? == Submitted(fields).Some?
  {
  }

  /** A chosen suggestion can be added at once exactly when it has a name, a city and a
      postcode, and it is then added as France. */
  lemma SuggestionSubmittable(s: Suggestion)
    ensures Submitted(FromSuggestion(s)).Some? <==> s.name != "" && s.city != "" && s.postcode != ""
    ensures Submitted(FromSuggestion(s)).Some? ==> Submitted(FromSuggestion(s)).value.country == "France"
  {
  }

  /** A card is highlighted when its id is the selected address's id. */
  predicate Highlighted(selected: Option<Address>, a: Address)
  {
    selected.Some? && selected.value.id == a.id
  }

  function IsHighlighted(selected: Option<Address>): Address -> bool
  {
    (a: Address) => Highlighted(selected, a)
  }

  /** No card before the last is highlighted when the last one is, ids being unique. */
  lemma OnlyLastHighlighted(book: seq<Address>, selected: Option<Address>)
    requires UniqueIds(book) && book != [] && Highlighted(selected, book[|book| - 1])
    ensures Filter(IsHighlighted(selected), book[..|book| - 1]) == []
  {
    var init := book[..|book| - 1];
    forall i | 0 <= i < |init|
      ensures !Highlighted(selected, init[i])
    {
      assert init[i].id != book[|book| - 1].id;
    }
    FilterDropsAll(IsHighlighted(selected), init);
  }

  /** In a book with unique ids at most one card is highlighted, and exactly one when the
      selection is one of the book's addresses. */
  lemma {:induction false} HighlightedCards(book: seq<Address>, selected: Option<Address>)
    requires UniqueIds(book)
    ensures |Filter(IsHighlighted(selected), book)| <= 1
    ensures selected.Some? && HasId(book, selected.value.id) ==> |Filter(IsHighlighted(selected), book)| == 1
  {
    if book != [] {
      var n := |book|;
      var init, last := book[..n - 1], book[n - 1];
      assert book == init + [last];
      assert UniqueIds(init);
      HighlightedCards(init, selected);
      FilterSnoc(IsHighlighted(selected), init, last);
      if Highlighted(selected, last) {
        OnlyLastHighlighted(book, selected);
      } else if selected.Some? && HasId(book, selected.value.id) {
        var i :| 0 <= i < n && book[i].id == selected.value.id;
        assert i < n - 1 && init[i] == book[i];
      }
    }
  }

  class AddressForm {
    var isAddingAddress: bool
    var editingAddress: Option<Address>
    var searchQuery: string
    var selectedSuggestion: Option<Suggestion>
    var suggestions: seq<Suggestion>
    var newAddress: AddressFields

    constructor ()
      ensures !isAddingAddress && editingAddress.None? && searchQuery == ""
      ensures selectedSuggestion.None? && suggestions == [] && newAddress == EmptyForm
    {
      isAddingAddress := false;
      editingAddress := None;
      searchQuery := "";
      selectedSuggestion := None;
      suggestions := [];
      newAddress := EmptyForm;
    }

    /** The add form as a reset leaves it. */
    predicate IsReset()
      reads this
    {
      !isAddingAddress && searchQuery == "" && selectedSuggestion.None? && newAddress == EmptyForm
    }

    /** "Ajouter une nouvelle adresse". */
    method StartAdding()
      modifies this
      ensures isAddingAddress
      ensures editingAddress == old(editingAddress) && searchQuery == old(searchQuery)
      ensures selectedSuggestion == old(selectedSuggestion) && suggestions == old(suggestions)
      ensures newAddress == old(newAddress)
    {
      isAddingAddress := true;
    }

    /** Typing into one of the add form's fields or into the search box. */
    method EditForm(fields: AddressFields, query: string)
      modifies this
      ensures newAddress == fields && searchQuery == query
      ensures isAddingAddress == old(isAddingAddress) && editingAddress == old(editingAddress)
      ensures selectedSuggestion == old(selectedSuggestion) && suggestions == old(suggestions)
    {
      newAddress := fields;
      searchQuery := query;
    }

    /** `handleSelectSuggestion`. */
    method SelectSuggestion(s: Suggestion)
      modifies this
      ensures selectedSuggestion == Some(s) && searchQuery == s.caption
      ensures newAddress == FromSuggestion(s) && suggestions == []
      ensures isAddingAddress == old(isAddingAddress) && editingAddress == old(editingAddress)
    {
      selectedSuggestion := Some(s);
      searchQuery := s.caption;
      newAddress := FromSuggestion(s);
      suggestions := [];
    }

    /** `handleAddAddress`: `submitted` is what reaches `onAddAddress`. A complete form is
        handed over and the form reset; an incomplete one changes nothing. */
    method AddAddress() returns (submitted: Option<AddressFields>)
      modifies this
      ensures submitted == Submitted(old(newAddress))
      ensures submitted.Some? ==> IsReset()
      ensures submitted.None? ==>
        isAddingAddress == old(isAddingAddress) && searchQuery == old(searchQuery) &&
        selectedSuggestion == old(selectedSuggestion) && newAddress == old(newAddress)
      ensures editingAddress == old(editingAddress) && suggestions == old(suggestions)
    {
      submitted := Submitted(newAddress);
      if submitted.Some? {
        newAddress := EmptyForm;
        searchQuery := "";
        selectedSuggestion := None;
        isAddingAddress := false;
      }
    }

    /** `handleCancelAdd`: the same reset as a successful add, and the suggestions cleared. */
    method CancelAdd()
      modifies this
      ensures IsReset() && suggestions == []
      ensures editingAddress == old(editingAddress)
    {
      isAddingAddress := false;
      searchQuery := "";
      selectedSuggestion := None;
      newAddress := EmptyForm;
      suggestions := [];
    }

    /** The pencil button of a card, and typing into the edit form. */
    method SetEditing(address: Option<Address>)
      modifies this
      ensures editingAddress == address
      ensures isAddingAddress == old(isAddingAddress) && searchQuery == old(searchQuery)
      ensures selectedSuggestion == old(selectedSuggestion) && suggestions == old(suggestions)
      ensures newAddress == old(newAddress)
    {
      editingAddress := address;
    }

    /** `handleEditAddress`: `submitted` is what reaches `onEditAddress`. A complete edit is
        handed over and the edit form closed; otherwise nothing changes. */
    method EditAddress() returns (submitted: Option<Address>)
      modifies this
      ensures old(editingAddress).Some? && Complete(old(editingAddress).value.street, old(editingAddress).value.city,
                                                    old(editingAddress).value.postalCode) ==>
        submitted == old(editingAddress) && editingAddress.None?
      ensures !(old(editingAddress).Some? && Complete(old(editingAddress).value.street, old(editingAddress).value.city,
                                                      old(editingAddress).value.postalCode)) ==>
        submitted.None? && editingAddress == old(editingAddress)
      ensures isAddingAddress == old(isAddingAddress) && searchQuery == old(searchQuery)
      ensures selectedSuggestion == old(selectedSuggestion) && suggestions == old(suggestions)
      ensures newAddress == old(newAddress)
    {
      submitted := None;
      if editingAddress.Some? {
        var e := editingAddress.value;
        if Complete(e.street, e.city, e.postalCode) {
          submitted := editingAddress;
          editingAddress := None;
        }
      }
    }
  }
}
