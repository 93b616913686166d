/** A user's saved-stocks list, kept in the realtime database at `users/{uid}/savedStocks`.
    The database is a map from user id to whatever value is stored there; writes are logged so
    that "no write happened" can be stated. */
module SavedStocks {
  import opened Wrappers

  /** `{symbol, name, savedAt}`; `savedAt` is the ISO timestamp of the save. */
  datatype SavedStock = SavedStock(symbol: string, name: string, savedAt: string)

  /** A value found at `users/{uid}/savedStocks`: an array of entries, or anything else. */
  datatype Stored = Items(items: seq<SavedStock>) | NotAnArray

  /** One `set(ref(database, 'users/{uid}/savedStocks'), list)`. */
  datatype Write = Write(uid: string, list: seq<SavedStock>)

  predicate HasSymbol(list: seq<SavedStock>, symbol: string) {
    exists k :: 0 <= k < |list| && list[k].symbol == symbol
  }

  /** No two entries share a symbol. */
  predicate DistinctSymbols(list: seq<SavedStock>) {
    forall j, k :: 0 <= j < k < |list| ==> list[j].symbol != list[k].symbol
  }

  /** The value exists and is an array. */
  predicate IsArray(v: Option<Stored>) {
    v.Some? && v.value.Items?
  }

  /** The list a read yields: a missing value, or one that is not an array, reads as `[]`. */
  function AsList(v: Option<Stored>): seq<SavedStock> {
    match v
    case Some(Items(items)) => items
    case _ => []
  }

  /** What `saveStock` leaves in the list: the entry is appended only when its symbol is new. */
  function Saved(list: seq<SavedStock>, symbol: string, name: string, at: string): (r: seq<SavedStock>)
    ensures HasSymbol(r, symbol)
    ensures |r| == |list| + (if HasSymbol(list, symbol) then 0 else 1)
    ensures r[..|list|] == list
    ensures !HasSymbol(list, symbol) ==> r[|list|] == SavedStock(symbol, name, at)
  {
    if HasSymbol(list, symbol) then list
    else
      var r := list + [SavedStock(symbol, name, at)];
      assert r[|list|].symbol == symbol;
      r
  }

  /** `list.filter(stock => stock.symbol !== symbol)`. */
  function Without(list: seq<SavedStock>, symbol: string): (r: seq<SavedStock>)
    ensures |r| <= |list|
    ensures forall s :: s in r <==> s in list && s.symbol != symbol
  {
    if list == [] then []
    else
      var last := list[|list| - 1];
      var init := Without(list[..|list| - 1], symbol);
      assert forall s :: s in list <==> s in list[..|list| - 1] || s == last by {
        assert list == list[..|list| - 1] + [last];
      }
      init + (if last.symbol == symbol then [] else [last])
  }

  /** After removal no entry carries the symbol. */
  lemma WithoutRemovesSymbol(list: seq<SavedStock>, symbol: string)
    ensures !HasSymbol(Without(list, symbol), symbol)
  {
    var r := Without(list, symbol);
    forall k | 0 <= k < |r| ensures r[k].symbol != symbol {
      assert r[k] in r;
    }
  }

  /** Filtering distributes over concatenation: the order of the kept entries is the original one. */
  lemma {:induction false} WithoutAppend(a: seq<SavedStock>, b: seq<SavedStock>, symbol: string)
    ensures Without(a + b, symbol) == Without(a, symbol) + Without(b, symbol)
  {
    if b != [] {
      var init := b[..|b| - 1];
      WithoutAppend(a, init, symbol);
      assert (a + b)[..|a + b| - 1] == a + init;
      assert (a + b)[|a + b| - 1] == b[|b| - 1];
    } else {
      assert a + b == a;
    }
  }

  /** Removing a symbol that is absent changes nothing. */
  lemma {:induction false} WithoutAbsent(list: seq<SavedStock>, symbol: string)
    requires !HasSymbol(list, symbol)
    ensures Without(list, symbol) == list
  {
    if list != [] {
      var init := list[..|list| - 1];
      var last := list[|list| - 1];
      assert last.symbol != symbol;
      assert !HasSymbol(init, symbol) by {
        forall k | 0 <= k < |init| ensures init[k].symbol != symbol { assert init[k] == list[k]; }
      }
      WithoutAbsent(init, symbol);
      calc {
        Without(list, symbol);
        Without(init, symbol) + [last];
        init + [last];
        list;
      }
    }
  }

  /** Removal keeps distinct symbols distinct. */
  lemma {:induction false} WithoutKeepsDistinct(list: seq<SavedStock>, symbol: string)
    requires DistinctSymbols(list)
    ensures DistinctSymbols(Without(list, symbol))
  {
    if list != [] {
      var init := list[..|list| - 1];
      var last := list[|list| - 1];
      assert DistinctSymbols(init) by {
        forall j, k | 0 <= j < k < |init| ensures init[j].symbol != init[k].symbol {
          assert init[j] == list[j] && init[k] == list[k];
        }
      }
      WithoutKeepsDistinct(init, symbol);
      var w := Without(init, symbol);
      if last.symbol != symbol {
        var r := w + [last];
        forall j, k | 0 <= j < k < |r| ensures r[j].symbol != r[k].symbol {
          if k == |w| {
            assert r[j] in init;
            var i :| 0 <= i < |init| && init[i] == r[j];
            assert list[i] == r[j];
          }
        }
      }
    }
  }

  /** Saving a symbol that is already present returns the list unchanged: saving is idempotent. */
  lemma SaveIdempotent(list: seq<SavedStock>, symbol: string, name: string, at: string, name2: string, at2: string)
    ensures var once := Saved(list, symbol, name, at);
            Saved(once, symbol, name2, at2) == once
  {
  }

  /** A list with distinct symbols keeps them distinct when a stock is saved. */
  lemma SaveKeepsDistinct(list: seq<SavedStock>, symbol: string, name: string, at: string)
    requires DistinctSymbols(list)
    ensures DistinctSymbols(Saved(list, symbol, name, at))
  {
    var r := Saved(list, symbol, name, at);
    if !HasSymbol(list, symbol) {
      forall j, k | 0 <= j < k < |r| ensures r[j].symbol != r[k].symbol {
        if k == |list| {
          assert r[j] == list[j];
        } else {
          assert r[j] == list[j] && r[k] == list[k];
        }
      }
    }
  }

  /** Saving a new symbol and then removing it gives back the original list. */
  lemma SaveThenRemove(list: seq<SavedStock>, symbol: string, name: string, at: string)
    requires !HasSymbol(list, symbol)
    ensures Without(Saved(list, symbol, name, at), symbol) == list
  {
    WithoutAppend(list, [SavedStock(symbol, name, at)], symbol);
    WithoutAbsent(list, symbol);
  }

  /** The user records `registerUser` and the three list operations read and write. */
  class UserStore {
    /** `users/{uid}/savedStocks` for each user that has a value there. */
    var savedStocks: map<string, Stored>
    /** Every write to a saved-stocks path, oldest first. */
    ghost var writes: seq<Write>

    constructor ()
      ensures savedStocks == map[] && writes == []
    {
      savedStocks := map[];
      writes := [];
    }

    function Lookup(uid: string): Option<Stored>
      reads this
    {
      if uid in savedStocks then Some(savedStocks[uid]) else None
    }

    /** `registerUser`: once the account `created` is made (its id, or the auth error), the new
        user's record starts with an empty saved-stocks list. An auth error writes nothing. */
    method RegisterUser(created: Result<string>) returns (r: Result<string>)
      modifies this
      ensures r == created
      ensures created.Ok? ==> savedStocks == old(savedStocks)[created.value := Items([])] &&
                              writes == old(writes) + [Write(created.value, [])]
      ensures created.Err? ==> savedStocks == old(savedStocks) && writes == old(writes)
    {
      if created.Err? {
        return created;
      }
      var uid := created.value;
      savedStocks := savedStocks[uid := Items([])];
      writes := writes + [Write(uid, [])];
      r := created;
    }

    /** `saveStock(uid, symbol, name)` at time `at`. */
    method SaveStock(uid: string, symbol: string, name: string, at: string) returns (r: seq<SavedStock>)
      modifies this
      ensures r == Saved(AsList(old(Lookup(uid))), symbol, name, at)
      ensures HasSymbol(AsList(old(Lookup(uid))), symbol) ==>
                savedStocks == old(savedStocks) && writes == old(writes)
      ensures !HasSymbol(AsList(old(Lookup(uid))), symbol) ==>
                savedStocks == old(savedStocks)[uid := Items(r)] && writes == old(writes) + [Write(uid, r)]
    {
      var list := AsList(Lookup(uid));
      if !HasSymbol(list, symbol) {
        list := list + [SavedStock(symbol, name, at)];
        savedStocks := savedStocks[uid := Items(list)];
        writes := writes + [Write(uid, list)];
      }
      r := list;
    }

    /** `removeStock(uid, symbol)`: an array is filtered and written back; a missing value or one
        that is not an array yields `[]` and no write. */
    method RemoveStock(uid: string, symbol: string) returns (r: seq<SavedStock>)
      modifies this
      ensures r == Without(AsList(old(Lookup(uid))), symbol)
      ensures IsArray(old(Lookup(uid))) ==>
                savedStocks == old(savedStocks)[uid := Items(r)] && writes == old(writes) + [Write(uid, r)]
      ensures !IsArray(old(Lookup(uid))) ==>
                savedStocks == old(savedStocks) && writes == old(writes)
    {
      if uid !in savedStocks {
        return [];
      }
      var stored := savedStocks[uid];
      if stored.NotAnArray? {
        return [];
      }
      r := Without(stored.items, symbol);
      savedStocks := savedStocks[uid := Items(r)];
      writes := writes + [Write(uid, r)];
    }

    /** `getSavedStocks(uid)`: the stored array, or `[]` when the value is missing or not an array. */
    method GetSavedStocks(uid: string) returns (r: seq<SavedStock>)
      ensures uid in savedStocks && savedStocks[uid].Items? ==> r == savedStocks[uid].items
      ensures !(uid in savedStocks && savedStocks[uid].Items?) ==> r == []
    {
      r := AsList(Lookup(uid));
    }
  }

  /** A user who has just registered reads back an empty list, and saving a stock then yields
      exactly that one entry. */
  method RegisterThenSave(uid: string, symbol: string, name: string, at: string) returns (first: seq<SavedStock>, second: seq<SavedStock>)
    ensures first == []
    ensures second == [SavedStock(symbol, name, at)]
  {
    var store := new UserStore();
    var _ := store.RegisterUser(Ok(uid));
    first := store.GetSavedStocks(uid);
    second := store.SaveStock(uid, symbol, name, at);
  }
}
