/** The permanent archive: a password-gated view over the archived records with a
    case-insensitive search and summary statistics. */
module Archive {
  import Lists
  import Text

  datatype ArchivedItem = ArchivedItem(
    id: string,
    qrCode: string,
    department: string,
    itemName: string,
    clientName: string,
    clientPhone: string,
    depositDate: string,
    returnDate: string,
    totalAmount: int)

  /** The one password that unlocks the archive. */
  const UnlockPassword: string := "202505"

  /** The search: the lowercased query occurs in the lowercased QR code, client name or item name. */
  predicate Matches(it: ArchivedItem, query: string)
  {
    Text.Includes(Text.Lower(it.qrCode), Text.Lower(query))
    || Text.Includes(Text.Lower(it.clientName), Text.Lower(query))
    || Text.Includes(Text.Lower(it.itemName), Text.Lower(query))
  }

  /** `filteredItems`. */
  function Search(items: seq<ArchivedItem>, query: string): seq<ArchivedItem>
  {
    Lists.Filter(items, it => Matches(it, query))
  }

  /** The number of records filed under department `dept`. */
  function DepartmentCount(items: seq<ArchivedItem>, dept: string): nat
  {
    |Lists.Filter(items, (it: ArchivedItem) => it.department == dept)|
  }

  /** The total tile's `reduce`: starting from `acc`, each record's amount is added in turn, from the left. */
  function ReduceAmounts(acc: int, items: seq<ArchivedItem>): int
    decreases |items|
  {
    if |items| == 0 then acc else ReduceAmounts(acc + items[0].totalAmount, items[1..])
  }

  /** Reference definition: the sum of `totalAmount` over the records. */
  function AmountSum(items: seq<ArchivedItem>): int
    decreases |items|
  {
    if |items| == 0 then 0 else items[0].totalAmount + AmountSum(items[1..])
  }

  /** The four statistic tiles: records, documents, photos and the total amount. */
  datatype ArchiveStats = ArchiveStats(records: nat, documents: nat, photos: nat, totalAmount: int)

  function Statistics(items: seq<ArchivedItem>): ArchiveStats
  {
    ArchiveStats(|items|, DepartmentCount(items, "documents"), DepartmentCount(items, "photos"),
                 ReduceAmounts(0, items))
  }

  /** What the view shows: the password card while locked, otherwise the tiles and the search results. */
  datatype Screen = LockCard | Unlocked(stats: ArchiveStats, results: seq<ArchivedItem>)

  /** The records the view holds. */
  const SeedArchive: seq<ArchivedItem> := [
    ArchivedItem("1", "QR-0003", "photos", "Фото 10x15", "Сидоров Сергей Сергеевич", "+7 (999) 777-88-99",
                 "2025-12-20", "2025-12-21", 1000),
    ArchivedItem("2", "QR-0002", "documents", "Загранпаспорт", "Петрова Анна Петровна", "+7 (999) 555-66-77",
                 "2025-12-15", "2025-12-18", 2500)
  ]

  class ArchivePanel {
    const archivedItems: seq<ArchivedItem>
    var password: string
    var isUnlocked: bool
    var searchQuery: string

    /** The archive opens locked, with empty password and search fields. */
    constructor ()
      ensures archivedItems == SeedArchive && password == "" && searchQuery == ""
      ensures !isUnlocked && Screen() == LockCard
    {
      archivedItems := SeedArchive;
      password := "";
      isUnlocked := false;
      searchQuery := "";
    }

    function Screen(): Screen
      reads this
    {
      if !isUnlocked then LockCard
      else Unlocked(Statistics(archivedItems), Search(archivedItems, searchQuery))
    }

    /** The password input's `onChange`. */
    method SetPassword(p: string)
      modifies this`password
      ensures password == p
    {
      password := p;
    }

    /** The search input's `onChange`. */
    method SetSearchQuery(q: string)
      modifies this`searchQuery
      ensures searchQuery == q
    {
      searchQuery := q;
    }

    /** `handleUnlock`: the entered password unlocks exactly when it is the archive password;
        a wrong one leaves the lock as it was. */
    method HandleUnlock() returns (unlocked: bool)
      modifies this`isUnlocked
      ensures unlocked <==> password == UnlockPassword
      ensures isUnlocked == if unlocked then true else old(isUnlocked)
    {
      if password == UnlockPassword {
        isUnlocked := true;
        unlocked := true;
      } else {
        unlocked := false;
      }
    }

    /** The lock button. */
    method Lock()
      modifies this`isUnlocked
      ensures !isUnlocked && Screen() == LockCard
    {
      isUnlocked := false;
    }
  }

  /** The search keeps the records in archive order and keeps exactly the matching ones,
      every copy of them. */
  lemma SearchIsFilter(items: seq<ArchivedItem>, query: string, it: ArchivedItem)
    ensures Lists.IsSubsequence(Search(items, query), items)
    ensures it in Search(items, query) <==> it in items && Matches(it, query)
    ensures multiset(Search(items, query))[it] == if Matches(it, query) then multiset(items)[it] else 0
  {
    Lists.FilterIsSubsequence(items, it => Matches(it, query));
    Lists.FilterMembership(items, it => Matches(it, query), it);
    Lists.FilterCount(items, it => Matches(it, query), it);
  }

  /** An empty search shows every archived record. */
  lemma EmptyQueryShowsAll(items: seq<ArchivedItem>)
    ensures Search(items, "") == items
  {
    forall i | 0 <= i < |items|
      ensures Matches(items[i], "")
    {
      assert Text.Lower("") == "";
      Text.IncludesEmpty(Text.Lower(items[i].qrCode));
    }
    Lists.FilterKeepsAll(items, it => Matches(it, ""));
  }

  /** The search ignores the query's case: a lowercased query finds the same records. */
  lemma SearchIgnoresQueryCase(items: seq<ArchivedItem>, query: string)
    ensures Search(items, Text.Lower(query)) == Search(items, query)
  {
    Text.LowerIdempotent(query);
    Lists.FilterSamePredicate(items, it => Matches(it, Text.Lower(query)), it => Matches(it, query));
  }

  /** Documents and photos are different departments, so together they never exceed the records. */
  lemma DepartmentCountsBound(items: seq<ArchivedItem>)
    ensures Statistics(items).documents + Statistics(items).photos <= Statistics(items).records
  {
    Lists.DisjointFiltersBound(items, (it: ArchivedItem) => it.department == "documents", (it: ArchivedItem) => it.department == "photos");
  }

  /** The left fold from `acc` adds the sum of the amounts to `acc`. */
  lemma {:induction false} ReduceIsSum(acc: int, items: seq<ArchivedItem>)
    ensures ReduceAmounts(acc, items) == acc + AmountSum(items)
    decreases |items|
  {
    if |items| > 0 {
      ReduceIsSum(acc + items[0].totalAmount, items[1..]);
    }
  }

  /** The total tile is the sum of `totalAmount` over all records. */
  lemma TotalIsSum(items: seq<ArchivedItem>)
    ensures Statistics(items).totalAmount == AmountSum(items)
  {
    ReduceIsSum(0, items);
  }

  /** The tiles for the two seeded records. */
  lemma SeedStatistics()
    ensures Statistics(SeedArchive) == ArchiveStats(2, 1, 1, 3500)
  {
  }
}
