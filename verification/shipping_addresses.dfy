/** The saved delivery addresses, kept as a default list. */
module ShippingAddressesScreen {
  import opened Seqs
  import opened DefaultLists

  datatype AddressDetails = AddressDetails(
    name: string, street: string, city: string, state: string, zipCode: string, country: string, phone: string)

  type Address = Entry<AddressDetails>

  const MockAddresses: seq<Address> := [
    Entry("1", true, AddressDetails("Home", "123 Main Street", "New York", "NY", "10001", "United States", "+1 (123) 456-7890")),
    Entry("2", false, AddressDetails("Office", "456 Business Ave", "Los Angeles", "CA", "90001", "United States", "+1 (987) 654-3210"))
  ]

  /**
   * Making an address the default and then deleting it: afterwards exactly
   * one address was default, then none is, and every other address is still
   * there, in order, with its details unchanged.
   */
  lemma SetDefaultThenDelete(s: seq<Address>, id: string)
    requires UniqueIds(s) && HasId(s, id)
    ensures DefaultCount(SetDefault(s, id)) == 1
    ensures forall i :: 0 <= i < |Delete(SetDefault(s, id), id)| ==> !Delete(SetDefault(s, id), id)[i].isDefault
    ensures forall i :: 0 <= i < |s| && s[i].id != id ==> s[i].(isDefault := false) in Delete(SetDefault(s, id), id)
    ensures IsSubsequence(Delete(SetDefault(s, id), id), SetDefault(s, id))
  {
    SetDefaultExactlyOne(s, id);
    var r := SetDefault(s, id);
    DeleteDefaultLeavesNone(r, id);
    forall i | 0 <= i < |s| && s[i].id != id
      ensures s[i].(isDefault := false) in Delete(r, id)
    {
      assert r[i] == s[i].(isDefault := false);
    }
  }

  /** The initial list has distinct ids and exactly one default, the home address. */
  lemma MockAddressesOneDefault()
    ensures UniqueIds(MockAddresses)
    ensures DefaultCount(MockAddresses) == 1 && MockAddresses[0].isDefault
  {
    assert MockAddresses[1..][1..] == [];
  }
}
