/** The saved payment cards, kept as a default list. */
module PaymentMethodsScreen {
  import opened DefaultLists

  datatype CardType = Credit | Debit

  datatype CardDetails = CardDetails(cardType: CardType, cardNumber: string, cardHolder: string, expiryDate: string)

  type PaymentMethod = Entry<CardDetails>

  const MockPaymentMethods: seq<PaymentMethod> := [
    Entry("1", true, CardDetails(Credit, "**** **** **** 1234", "John Doe", "12/25")),
    Entry("2", false, CardDetails(Debit, "**** **** **** 5678", "John Doe", "06/24"))
  ]

  /**
   * On the initial list, making either card the default leaves exactly that
   * one default; deleting it then leaves the other card alone, not default.
   */
  lemma MockListDefaults(id: string)
    requires id == "1" || id == "2"
    ensures UniqueIds(MockPaymentMethods)
    ensures DefaultCount(SetDefault(MockPaymentMethods, id)) == 1
    ensures Delete(SetDefault(MockPaymentMethods, id), id)
      == [MockPaymentMethods[if id == "1" then 1 else 0].(isDefault := false)]
  {
    assert MockPaymentMethods[if id == "1" then 0 else 1].id == id;
    SetDefaultExactlyOne(MockPaymentMethods, id);
    var r := SetDefault(MockPaymentMethods, id);
    assert r == [MockPaymentMethods[0].(isDefault := id == "1"), MockPaymentMethods[1].(isDefault := id == "2")];
    assert r[1..][1..] == [];
  }
}
