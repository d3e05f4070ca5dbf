/** Accounts and the sum of their balances. */
module Accounts {
  import opened Amounts
  import opened Operations

  datatype Account = Account(balance: Amount, sequenceId: Amount, linked: Address) {
    predicate IsFrozen() { linked != "" }
  }

  type Book = map<Address, Account>

  function Deposit(a: Account, fund: Amount): Result<Account> {
    var balance :- Add(a.balance, fund);
    Ok(a.(balance := balance))
  }

  function Withdraw(a: Account, fund: Amount): Result<Account> {
    var balance :- Sub(a.balance, fund);
    Ok(a.(balance := balance))
  }

  function IncreaseSequenceID(a: Account): Account {
    a.(sequenceId := (a.sequenceId + 1) % TWO64)
  }

  /* ---- sums ---- */

  ghost function SumOver(book: Book, keys: set<Address>): nat
    requires keys <= book.Keys
    decreases keys
  {
    if keys == {} then 0
    else
      var x :| x in keys;
      book[x].balance + SumOver(book, keys - {x})
  }

  ghost function Sum(book: Book): nat { SumOver(book, book.Keys) }

  lemma {:induction false} SumPick(book: Book, keys: set<Address>, x: Address)
    requires keys <= book.Keys && x in keys
    ensures SumOver(book, keys) == book[x].balance + SumOver(book, keys - {x})
    decreases keys
  {
    var y :| y in keys && SumOver(book, keys) == book[y].balance + SumOver(book, keys - {y});
    if y != x {
      SumPick(book, keys - {y}, x);
      SumPick(book, keys - {x}, y);
      assert keys - {y} - {x} == keys - {x} - {y};
    }
  }

  lemma {:induction false} SumFrame(book: Book, other: Book, keys: set<Address>)
    requires keys <= book.Keys && keys <= other.Keys
    requires forall a :: a in keys ==> book[a].balance == other[a].balance
    ensures SumOver(book, keys) == SumOver(other, keys)
    decreases keys
  {
    if keys != {} {
      var x :| x in keys;
      SumPick(book, keys, x);
      SumPick(other, keys, x);
      SumFrame(book, other, keys - {x});
    }
  }

  lemma SumUpdate(book: Book, x: Address, acct: Account)
    requires x in book
    ensures Sum(book[x := acct]) == Sum(book) - book[x].balance + acct.balance
  {
    var other := book[x := acct];
    assert other.Keys == book.Keys;
    SumPick(book, book.Keys, x);
    SumPick(other, other.Keys, x);
    SumFrame(book, other, book.Keys - {x});
  }

  lemma SumInsert(book: Book, x: Address, acct: Account)
    requires x !in book
    ensures Sum(book[x := acct]) == Sum(book) + acct.balance
  {
    var other := book[x := acct];
    assert other.Keys - {x} == book.Keys;
    SumPick(other, other.Keys, x);
    SumFrame(book, other, book.Keys);
  }

  lemma SumBounds(book: Book, x: Address, y: Address)
    requires x in book && y in book
    ensures book[x].balance <= Sum(book)
    ensures x != y ==> book[x].balance + book[y].balance <= Sum(book)
  {
    SumPick(book, book.Keys, x);
    if x != y {
      SumPick(book, book.Keys - {x}, y);
    }
  }
}
