/** The item registry: items deposited by clients, added through a validated form,
    returned by id, labelled with generated QR codes and, for clients, filtered
    down to the client's own items. */
module Items {
  import opened Users
  import Lists
  import Decimal

  datatype Status = Active | Returned

  /** A deposited item. Amounts are the caller's parse of the form's text. */
  datatype Item = Item(
    id: string,
    qrCode: string,
    department: string,
    itemName: string,
    clientName: string,
    clientPhone: string,
    clientEmail: string,
    depositAmount: int,
    returnAmount: int,
    depositDate: string,
    expectedReturnDate: string,
    status: Status)

  /** The add-item form, every field as the text the inputs hold. */
  datatype ItemForm = ItemForm(
    qrCode: string,
    department: string,
    itemName: string,
    clientName: string,
    clientPhone: string,
    clientEmail: string,
    depositAmount: string,
    returnAmount: string,
    depositDate: string,
    expectedReturnDate: string)

  /** The form's defaults; `today` is the current date in ISO form. */
  function BlankForm(today: string): ItemForm
  {
    ItemForm("", "documents", "", "", "", "", "0", "0", today, "")
  }

  /** The four fields the add button insists on. */
  predicate FormComplete(f: ItemForm)
  {
    f.qrCode != "" && f.itemName != "" && f.clientName != "" && f.clientPhone != ""
  }

  /** The same four fields, on a stored item. */
  predicate WellFormed(it: Item)
  {
    it.qrCode != "" && it.itemName != "" && it.clientName != "" && it.clientPhone != ""
  }

  /** The item built from a form: new id, the form's text copied verbatim, amounts parsed, active. */
  function ItemFromForm(f: ItemForm, id: string, parse: string -> int): Item
  {
    Item(id, f.qrCode, f.department, f.itemName, f.clientName, f.clientPhone, f.clientEmail,
         parse(f.depositAmount), parse(f.returnAmount), f.depositDate, f.expectedReturnDate, Active)
  }

  /** Returning by id: each item with this id marked returned, every other item as it was. */
  function MarkReturned(items: seq<Item>, id: string): (r: seq<Item>)
  {
    if |items| == 0 then []
    else [if items[0].id == id then items[0].(status := Returned) else items[0]]
         + MarkReturned(items[1..], id)
  }

  /** The generated label for item number `n`: `"QR-"` and `n` in decimal, padded to four digits. */
  function QRLabel(n: nat): string
  {
    "QR-" + Decimal.PadStart(Decimal.ToDecimal(n), 4, '0')
  }

  /** `canEdit`: who gets the add-item dialog. */
  predicate CanEdit(role: Role)
  {
    role == Admin || role == Creator || role == Nikitovsky
  }

  /** `canReturn`: who gets the return button. */
  predicate CanReturn(role: Role)
  {
    role != Client
  }

  /** The list filter: a client sees the items filed under their own phone, everybody else sees all. */
  predicate VisibleTo(user: User, it: Item)
  {
    user.role == Client ==> user.phone == Some(it.clientPhone)
  }

  function Visible(user: User, items: seq<Item>): seq<Item>
  {
    Lists.Filter(items, it => VisibleTo(user, it))
  }

  /** The list the view starts with. */
  const SeedItems: seq<Item> := [
    Item("1", "QR-0001", "documents", "Паспорт РФ", "Иванов Иван Иванович", "+7 (999) 123-45-67",
         "ivanov@example.com", 500, 500, "2025-12-23", "2025-12-30", Active)
  ]

  class ItemsPanel {
    const user: User
    var items: seq<Item>
    var newItem: ItemForm
    var isAddDialogOpen: bool

    /** Every stored item has its four required fields. */
    ghost predicate Valid()
      reads this
    {
      forall i :: 0 <= i < |items| ==> WellFormed(items[i])
    }

    constructor (user: User, today: string)
      ensures this.user == user && items == SeedItems && newItem == BlankForm(today)
      ensures !isAddDialogOpen && Valid()
    {
      this.user := user;
      items := SeedItems;
      newItem := BlankForm(today);
      isAddDialogOpen := false;
    }

    /** `handleAddItem`: with an incomplete form nothing changes; otherwise the new active item
        is appended, the dialog closes and the form is reset. The clock's id and date and
        `parseFloat` are the caller's `id`, `today` and `parse`. */
    method HandleAddItem(id: string, today: string, parse: string -> int) returns (added: bool)
      requires Valid()
      modifies this
      ensures Valid()
      ensures added <==> FormComplete(old(newItem))
      ensures !added ==> items == old(items) && newItem == old(newItem) && isAddDialogOpen == old(isAddDialogOpen)
      ensures added ==> items == old(items) + [ItemFromForm(old(newItem), id, parse)]
      ensures added ==> newItem == BlankForm(today) && !isAddDialogOpen
    {
      if newItem.qrCode == "" || newItem.itemName == "" || newItem.clientName == "" || newItem.clientPhone == "" {
        return false;
      }
      var item := ItemFromForm(newItem, id, parse);
      items := items + [item];
      isAddDialogOpen := false;
      newItem := BlankForm(today);
      added := true;
    }

    /** `handleReturnItem`. */
    method HandleReturnItem(id: string)
      requires Valid()
      modifies this`items
      ensures Valid()
      ensures items == MarkReturned(old(items), id)
    {
      MarkReturnedAt(items, id);
      items := MarkReturned(items, id);
    }

    /** `generateQRCode`: fills in the label for the next item number and touches nothing else. */
    method GenerateQRCode()
      modifies this`newItem
      ensures newItem == old(newItem).(qrCode := QRLabel(|items| + 1))
    {
      newItem := newItem.(qrCode := QRLabel(|items| + 1));
    }
  }

  /** The item built from a complete form is active, carries the fresh id, copies every text
      field of the form verbatim and holds the parsed amounts, so it has its required fields. */
  lemma AddedItemCopiesForm(f: ItemForm, id: string, parse: string -> int)
    requires FormComplete(f)
    ensures WellFormed(ItemFromForm(f, id, parse))
    ensures ItemFromForm(f, id, parse).status == Active
    ensures ItemFromForm(f, id, parse).id == id
    ensures ItemFromForm(f, id, parse).qrCode == f.qrCode && ItemFromForm(f, id, parse).itemName == f.itemName
    ensures ItemFromForm(f, id, parse).clientName == f.clientName && ItemFromForm(f, id, parse).clientPhone == f.clientPhone
    ensures ItemFromForm(f, id, parse).department == f.department && ItemFromForm(f, id, parse).clientEmail == f.clientEmail
    ensures ItemFromForm(f, id, parse).depositDate == f.depositDate
    ensures ItemFromForm(f, id, parse).expectedReturnDate == f.expectedReturnDate
    ensures ItemFromForm(f, id, parse).depositAmount == parse(f.depositAmount)
    ensures ItemFromForm(f, id, parse).returnAmount == parse(f.returnAmount)
  {
  }

  /** Right after a successful add the form is blank again, so a second press adds nothing. */
  lemma BlankFormIsIncomplete(today: string)
    ensures !FormComplete(BlankForm(today))
  {
  }

  /** Returning by id keeps the list's length and order, marks exactly the items with that id
      returned and leaves every other item, and every other field, as it was. */
  lemma {:induction false} MarkReturnedAt(items: seq<Item>, id: string)
    ensures |MarkReturned(items, id)| == |items|
    ensures forall i :: 0 <= i < |items| ==>
              MarkReturned(items, id)[i]
                == if items[i].id == id then items[i].(status := Returned) else items[i]
  {
    if |items| > 0 {
      MarkReturnedAt(items[1..], id);
    }
  }

  /** Returning the same id twice is the same as returning it once. */
  lemma MarkReturnedIdempotent(items: seq<Item>, id: string)
    ensures MarkReturned(MarkReturned(items, id), id) == MarkReturned(items, id)
  {
    MarkReturnedAt(items, id);
    MarkReturnedAt(MarkReturned(items, id), id);
  }

  /** A generated label is `"QR-"` followed by at least four digits that read back as `n`,
      so different item numbers get different labels. */
  lemma QRLabelReadsBack(n: nat)
    ensures |QRLabel(n)| >= 7 && QRLabel(n)[..3] == "QR-"
    ensures Decimal.AllDigits(QRLabel(n)[3..]) && Decimal.ValueOf(QRLabel(n)[3..]) == n
  {
    assert QRLabel(n)[3..] == Decimal.PadStart(Decimal.ToDecimal(n), 4, '0');
    Decimal.PaddedDecimalValue(n, 4);
  }

  lemma QRLabelInjective(n: nat, m: nat)
    ensures QRLabel(n) == QRLabel(m) <==> n == m
  {
    QRLabelReadsBack(n);
    QRLabelReadsBack(m);
  }

  /** On a fresh view, with the one seeded item, the generator proposes `"QR-0002"`. */
  lemma FirstGeneratedLabel()
    ensures QRLabel(|SeedItems| + 1) == "QR-0002"
  {
  }

  /** Only admin, creator and nikitovsky may add; every role but the client may return. */
  lemma EditAndReturnGates(role: Role)
    ensures CanEdit(role) <==> role in {Admin, Creator, Nikitovsky}
    ensures CanReturn(role) <==> role != Client
    ensures CanEdit(role) ==> CanReturn(role)
  {
  }

  /** A client sees exactly the items filed under the session's phone, in list order and
      with every copy kept. */
  lemma ClientSeesOwnItems(user: User, items: seq<Item>, it: Item)
    requires user.role == Client
    ensures it in Visible(user, items) <==> it in items && user.phone == Some(it.clientPhone)
    ensures Lists.IsSubsequence(Visible(user, items), items)
    ensures multiset(Visible(user, items))[it]
              == if user.phone == Some(it.clientPhone) then multiset(items)[it] else 0
  {
    Lists.FilterMembership(items, it => VisibleTo(user, it), it);
    Lists.FilterCount(items, it => VisibleTo(user, it), it);
    Lists.FilterIsSubsequence(items, it => VisibleTo(user, it));
  }

  /** Every other role sees the whole list. */
  lemma StaffSeesAllItems(user: User, items: seq<Item>)
    requires user.role != Client
    ensures Visible(user, items) == items
  {
    Lists.FilterKeepsAll(items, it => VisibleTo(user, it));
  }
}
