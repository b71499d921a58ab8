/** The dialog provider (src/providers/DialogProvider.tsx): the menu item shown in the
    add-to-cart dialog, the address modal's open flag, and the customer's address book with its
    current selection. Ids of new addresses come from the clock, which is a parameter here. */
module DialogProvider {
  import opened Wrappers
  import opened Seqs
  import opened Text
  import opened Types

  /** An address without its id, as the address form hands it over. */
  datatype AddressFields = AddressFields(street: string, city: string, postalCode: string, country: string)

  function WithId(fields: AddressFields, id: string): (a: Address)
    ensures a.id == id && a.street == fields.street && a.city == fields.city
    ensures a.postalCode == fields.postalCode && a.country == fields.country
  {
    Address(id, fields.street, fields.city, fields.postalCode, fields.country)
  }

  /** The three addresses the book starts with. */
  const InitialAddresses: seq<Address> := [
    Address("1", "123 Rue de Rivoli", "Paris", "75001", "France"),
    Address("2", "456 Avenue des Champs-Élysées", "Paris", "75008", "France"),
    Address("3", "789 Boulevard Saint-Germain", "Paris", "75006", "France")
  ]

  predicate HasId(book: seq<Address>, id: string)
  {
    exists i :: 0 <= i < |book| && book[i].id == id
  }

  /** No two addresses share an id. */
  predicate UniqueIds(book: seq<Address>)
  {
    forall i, j :: 0 <= i < j < |book| ==> book[i].id != book[j].id
  }

  /** `addAddress`: the new address goes at the end under the given id. */
  function Appended(book: seq<Address>, fields: AddressFields, id: string): (r: seq<Address>)
    ensures |r| == |book| + 1 && r[..|book|] == book
    ensures r[|book|] == WithId(fields, id)
    ensures !HasId(book, id) && UniqueIds(book) ==> UniqueIds(r)
  {
    book + [WithId(fields, id)]
  }

  /** `editAddress`: every address carrying the updated one's id is replaced by it. */
  function Edited(book: seq<Address>, updated: Address): (r: seq<Address>)
    ensures |r| == |book|
    ensures forall i :: 0 <= i < |book| ==> r[i] == (if book[i].id == updated.id then updated else book[i])
  {
    Map((a: Address) => if a.id == updated.id then updated else a, book)
  }

  function DiffersFrom(id: string): Address -> bool
  {
    (a: Address) => a.id != id
  }

  /** The list `deleteAddress` keeps: the addresses whose id differs, in their order. */
  function Without(book: seq<Address>, id: string): (r: seq<Address>)
    ensures |r| <= |book|
    ensures !HasId(r, id)
    ensures forall a :: a in r <==> a in book && a.id != id
  {
    Filter(DiffersFrom(id), book)
  }

  /** The selection after `deleteAddress`: the first remaining address, or none, when the
      deleted id was selected; otherwise the selection as it was. */
  function Reselected(selected: Option<Address>, remaining: seq<Address>, id: string): (r: Option<Address>)
    ensures selected.Some? && selected.value.id == id && remaining != [] ==> r == Some(remaining[0])
    ensures selected.Some? && selected.value.id == id && remaining == [] ==> r.None?
    ensures !(selected.Some? && selected.value.id == id) ==> r == selected
  {
    if selected.Some? && selected.value.id == id then
      if |remaining| > 0 then Some(remaining[0]) else None
    else selected
  }

  /** The effect selecting the first address whenever nothing is selected. */
  function AutoSelected(selected: Option<Address>, book: seq<Address>): (r: Option<Address>)
    ensures selected.Some? ==> r == selected
    ensures selected.None? && book != [] ==> r == Some(book[0])
    ensures selected.None? && book == [] ==> r.None?
  {
    if selected.None? && |book| > 0 then Some(book[0]) else selected
  }

  /** The selected address, if any, is (by id) one of the book's addresses. */
  predicate SelectionListed(selected: Option<Address>, book: seq<Address>)
  {
    selected.None? || HasId(book, selected.value.id)
  }

  /** Editing an address the book does not hold changes nothing. */
  lemma EditUnknownIsNoop(book: seq<Address>, updated: Address)
    requires !HasId(book, updated.id)
    ensures Edited(book, updated) == book
  {
    var r := Edited(book, updated);
    assert forall i :: 0 <= i < |book| ==> r[i] == book[i] by {
      forall i | 0 <= i < |book|
        ensures r[i] == book[i]
      {
        assert book[i].id != updated.id;
      }
    }
  }

  /** Saving the same edit twice is the same as saving it once. */
  lemma EditIdempotent(book: seq<Address>, updated: Address)
    ensures Edited(Edited(book, updated), updated) == Edited(book, updated)
  {
  }

  /** Editing keeps every id where it was, so unique ids stay unique and a listed selection
      stays listed. */
  lemma EditKeepsIds(book: seq<Address>, updated: Address, selected: Option<Address>)
    ensures forall i :: 0 <= i < |book| ==> Edited(book, updated)[i].id == book[i].id
    ensures UniqueIds(book) ==> UniqueIds(Edited(book, updated))
    ensures SelectionListed(selected, book) ==> SelectionListed(selected, Edited(book, updated))
  {
    var r := Edited(book, updated);
    if selected.Some? && HasId(book, selected.value.id) {
      var i :| 0 <= i < |book| && book[i].id == selected.value.id;
      assert r[i].id == selected.value.id;
    }
  }

  /** Deleting an id the book does not hold changes nothing. */
  lemma DeleteUnknownIsNoop(book: seq<Address>, id: string)
    requires !HasId(book, id)
    ensures Without(book, id) == book
  {
    FilterKeepsAll(DiffersFrom(id), book);
  }

  /** Deleting the id just added undoes the addition, when the id was fresh. */
  lemma DeleteUndoesAdd(book: seq<Address>, fields: AddressFields, id: string)
    requires !HasId(book, id)
    ensures Without(Appended(book, fields, id), id) == book
  {
    FilterSnoc(DiffersFrom(id), book, WithId(fields, id));
    DeleteUnknownIsNoop(book, id);
  }

  /** Deleting keeps the remaining addresses in their order, so unique ids stay unique. */
  lemma {:induction false} DeleteKeepsUnique(book: seq<Address>, id: string)
    requires UniqueIds(book)
    ensures UniqueIds(Without(book, id))
  {
    if book != [] {
      var n := |book|;
      var last := book[n - 1];
      assert book == book[..n - 1] + [last];
      DeleteKeepsUnique(book[..n - 1], id);
      FilterSnoc(DiffersFrom(id), book[..n - 1], last);
      var f := Without(book[..n - 1], id);
      if last.id != id {
        forall a | a in f
          ensures a.id != last.id
        {
          var k :| 0 <= k < n - 1 && book[k] == a;
        }
      }
    }
  }

  /** Deleting keeps a listed selection listed: an untouched selection keeps its address, and
      a deleted selection moves to an address that remains. */
  lemma DeleteKeepsSelectionListed(book: seq<Address>, selected: Option<Address>, id: string)
    requires SelectionListed(selected, book)
    ensures SelectionListed(Reselected(selected, Without(book, id), id), Without(book, id))
  {
    var rest := Without(book, id);
    var r := Reselected(selected, rest, id);
    if selected.Some? && selected.value.id != id {
      var i :| 0 <= i < |book| && book[i].id == selected.value.id;
      assert book[i] in rest;
      var k :| 0 <= k < |rest| && rest[k] == book[i];
    } else if r.Some? {
      assert rest[0].id == r.value.id;
    }
  }

  /** The three starting ids are distinct, and the book starts with nothing selected. */
  lemma InitialBookValid()
    ensures UniqueIds(InitialAddresses) && SelectionListed(None, InitialAddresses)
  {
  }

  class AddressBook {
    var dialogMenuItem: Option<MenuItem>
    var isAddressModalOpen: bool
    var selectedAddress: Option<Address>
    var addresses: seq<Address>

    constructor ()
      ensures dialogMenuItem.None? && !isAddressModalOpen && selectedAddress.None?
      ensures addresses == InitialAddresses
    {
      dialogMenuItem := None;
      isAddressModalOpen := false;
      selectedAddress := None;
      addresses := InitialAddresses;
    }

    method OpenAddToCartDialog(item: MenuItem)
      modifies this
      ensures dialogMenuItem == Some(item)
      ensures isAddressModalOpen == old(isAddressModalOpen)
      ensures selectedAddress == old(selectedAddress) && addresses == old(addresses)
    {
      dialogMenuItem := Some(item);
    }

    method CloseAddToCartDialog()
      modifies this
      ensures dialogMenuItem.None?
      ensures isAddressModalOpen == old(isAddressModalOpen)
      ensures selectedAddress == old(selectedAddress) && addresses == old(addresses)
    {
      dialogMenuItem := None;
    }

    method OpenAddressModal()
      modifies this
      ensures isAddressModalOpen
      ensures dialogMenuItem == old(dialogMenuItem)
      ensures selectedAddress == old(selectedAddress) && addresses == old(addresses)
    {
      isAddressModalOpen := true;
    }

    method CloseAddressModal()
      modifies this
      ensures !isAddressModalOpen
      ensures dialogMenuItem == old(dialogMenuItem)
      ensures selectedAddress == old(selectedAddress) && addresses == old(addresses)
    {
      isAddressModalOpen := false;
    }

    /** `setSelectedAddress`, exposed as it is. */
    method SetSelectedAddress(address: Option<Address>)
      modifies this
      ensures selectedAddress == address
      ensures dialogMenuItem == old(dialogMenuItem) && isAddressModalOpen == old(isAddressModalOpen)
      ensures addresses == old(addresses)
    {
      selectedAddress := address;
    }

    /** `addAddress`; `now` is the clock reading whose decimal text becomes the id. */
    method AddAddress(fields: AddressFields, now: nat)
      modifies this
      ensures addresses == Appended(old(addresses), fields, NatToString(now))
      ensures selectedAddress == old(selectedAddress)
      ensures dialogMenuItem == old(dialogMenuItem) && isAddressModalOpen == old(isAddressModalOpen)
      ensures SelectionListed(old(selectedAddress), old(addresses)) ==> SelectionListed(selectedAddress, addresses)
    {
      if selectedAddress.Some? && HasId(addresses, selectedAddress.value.id) {
        var i :| 0 <= i < |addresses| && addresses[i].id == selectedAddress.value.id;
        assert Appended(addresses, fields, NatToString(now))[i] == addresses[i];
      }
      addresses := Appended(addresses, fields, NatToString(now));
    }

    /** `editAddress`. The selection is not touched: a selected address that is edited stays
        selected with its old fields. */
    method EditAddress(updated: Address)
      modifies this
      ensures addresses == Edited(old(addresses), updated)
      ensures selectedAddress == old(selectedAddress)
      ensures dialogMenuItem == old(dialogMenuItem) && isAddressModalOpen == old(isAddressModalOpen)
      ensures UniqueIds(old(addresses)) ==> UniqueIds(addresses)
      ensures SelectionListed(old(selectedAddress), old(addresses)) ==> SelectionListed(selectedAddress, addresses)
    {
      EditKeepsIds(addresses, updated, selectedAddress);
      addresses := Edited(addresses, updated);
    }

    /** `deleteAddress`, including its re-selection of the first remaining address. */
    method DeleteAddress(id: string)
      modifies this
      ensures addresses == Without(old(addresses), id)
      ensures selectedAddress == Reselected(old(selectedAddress), addresses, id)
      ensures dialogMenuItem == old(dialogMenuItem) && isAddressModalOpen == old(isAddressModalOpen)
      ensures UniqueIds(old(addresses)) ==> UniqueIds(addresses)
      ensures SelectionListed(old(selectedAddress), old(addresses)) ==> SelectionListed(selectedAddress, addresses)
    {
      if UniqueIds(addresses) {
        DeleteKeepsUnique(addresses, id);
      }
      if SelectionListed(selectedAddress, addresses) {
        DeleteKeepsSelectionListed(addresses, selectedAddress, id);
      }
      var remaining := Without(addresses, id);
      selectedAddress := Reselected(selectedAddress, remaining, id);
      addresses := remaining;
    }

    /** The effect run after every change of the list or the selection: afterwards something
        is selected whenever the book is not empty. */
    method AutoSelect()
      modifies this
      ensures selectedAddress == AutoSelected(old(selectedAddress), addresses)
      ensures addresses != [] ==> selectedAddress.Some?
      ensures addresses == old(addresses)
      ensures dialogMenuItem == old(dialogMenuItem) && isAddressModalOpen == old(isAddressModalOpen)
      ensures SelectionListed(old(selectedAddress), addresses) ==> SelectionListed(selectedAddress, addresses)
    {
      if selectedAddress.None? && |addresses| > 0 {
        selectedAddress := Some(addresses[0]);
      }
    }
  }
}
