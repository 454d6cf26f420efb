/** The client registry of the management view: a list of clients with their
    discount and bonus points, extended through a validated dialog form. */
module Management {

  /** A registered client. Discount and bonus points are the caller's parse of the form's text. */
  datatype Client = Client(
    id: string,
    name: string,
    phone: string,
    email: string,
    discount: int,
    bonusPoints: int,
    createdAt: string)

  /** The add-client form, every field as the text the inputs hold. */
  datatype ClientForm = ClientForm(
    name: string,
    phone: string,
    email: string,
    discount: string,
    bonusPoints: string)

  /** The form's defaults. */
  const BlankClientForm: ClientForm := ClientForm("", "", "", "0", "0")

  /** The two fields the add button insists on. */
  predicate FormComplete(f: ClientForm)
  {
    f.name != "" && f.phone != ""
  }

  /** The client built from a form: new id, name, phone and email copied, numbers parsed, dated today. */
  function ClientFromForm(f: ClientForm, id: string, today: string, parse: string -> int): Client
  {
    Client(id, f.name, f.phone, f.email, parse(f.discount), parse(f.bonusPoints), today)
  }

  /** The list the view starts with. */
  const SeedClients: seq<Client> := [
    Client("1", "Иванов Иван Иванович", "+7 (999) 123-45-67", "ivanov@example.com", 10, 150, "2025-12-01")
  ]

  class ClientsPanel {
    var clients: seq<Client>
    var newClient: ClientForm
    var isAddClientOpen: bool

    /** Every registered client has a name and a phone. */
    ghost predicate Valid()
      reads this
    {
      forall i :: 0 <= i < |clients| ==> clients[i].name != "" && clients[i].phone != ""
    }

    constructor ()
      ensures clients == SeedClients && newClient == BlankClientForm && !isAddClientOpen && Valid()
    {
      clients := SeedClients;
      newClient := BlankClientForm;
      isAddClientOpen := false;
    }

    /** `handleAddClient`: with a missing name or phone nothing changes; otherwise the client
        is appended, the form is reset and the dialog closes. The clock's id and date and
        `parseFloat` are the caller's `id`, `today` and `parse`. */
    method HandleAddClient(id: string, today: string, parse: string -> int) returns (added: bool)
      requires Valid()
      modifies this
      ensures Valid()
      ensures added <==> FormComplete(old(newClient))
      ensures !added ==> clients == old(clients) && newClient == old(newClient) && isAddClientOpen == old(isAddClientOpen)
      ensures added ==> clients == old(clients) + [ClientFromForm(old(newClient), id, today, parse)]
      ensures added ==> newClient == BlankClientForm && !isAddClientOpen
    {
      if newClient.name == "" || newClient.phone == "" {
        return false;
      }
      var client := ClientFromForm(newClient, id, today, parse);
      clients := clients + [client];
      isAddClientOpen := false;
      newClient := BlankClientForm;
      added := true;
    }
  }

  /** The new client carries the fresh id, the form's name, phone and email and its parsed numbers,
      dated with the day of creation. */
  lemma AddedClientCopiesForm(f: ClientForm, id: string, today: string, parse: string -> int)
    ensures ClientFromForm(f, id, today, parse).name == f.name
    ensures ClientFromForm(f, id, today, parse).phone == f.phone
    ensures ClientFromForm(f, id, today, parse).email == f.email
    ensures ClientFromForm(f, id, today, parse).createdAt == today
    ensures ClientFromForm(f, id, today, parse).id == id
    ensures ClientFromForm(f, id, today, parse).discount == parse(f.discount)
    ensures ClientFromForm(f, id, today, parse).bonusPoints == parse(f.bonusPoints)
  {
  }

  /** A reset form cannot be submitted again: its name, phone and email are empty and its numbers are `0`. */
  lemma BlankClientFormIsIncomplete()
    ensures !FormComplete(BlankClientForm)
    ensures BlankClientForm.name == "" && BlankClientForm.phone == "" && BlankClientForm.email == ""
    ensures BlankClientForm.discount == "0" && BlankClientForm.bonusPoints == "0"
  {
  }
}
