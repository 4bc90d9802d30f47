/**
 * The category-list page `Home`: its handlers form a small state machine
 * over the category list, the last list searched, the input text and the
 * state of the product-search request. The request's reply is a parameter
 * (the server and the network are not modelled).
 */
module Home {
  import opened Wrappers
  import opened Product

  /** The search request's state as the page reads it; `Succeeded` carries `data.data`. */
  datatype Mutation = Idle | Failed | Succeeded(data: seq<ProductRecord>)

  /**
   * `state.filter((value, i) => i !== target)`: the list without the entry
   * at position `target`; any other `target` removes nothing.
   */
  function Removed(s: seq<string>, target: int): (r: seq<string>)
    ensures 0 <= target < |s| ==> r == s[..target] + s[target + 1..]
    ensures !(0 <= target < |s|) ==> r == s
    decreases |s|
  {
    if s == [] then []
    else (if target == 0 then [] else [s[0]]) + Removed(s[1..], target - 1)
  }

  /** Deleting the entry just appended gives back the list before the append. */
  lemma RemovedUndoesAppend(s: seq<string>, c: string)
    ensures Removed(s + [c], |s|) == s
  {
    assert (s + [c])[..|s|] == s;
  }

  /** `productScrapperMutation.data?.data !== undefined`. */
  predicate HasData(m: Mutation) {
    m.Succeeded?
  }

  /** `disabled` of "Buscar Produtos". */
  predicate SearchDisabled(categories: seq<string>) {
    |categories| < 1
  }

  /** `disabled` of "Limpar Produtos". */
  predicate ClearDisabled(categories: seq<string>, m: Mutation) {
    |categories| < 1 && !HasData(m)
  }

  /** `disabled` of "Exportar CSV". */
  predicate ExportDisabled(m: Mutation) {
    !HasData(m)
  }

  class HomePage {
    var categories: seq<string>
    var lastSearch: seq<string>
    var category: string
    var mutation: Mutation
    /** Every category list posted to the scraping endpoint, oldest first. */
    ghost var requests: seq<seq<string>>

    /**
     * Results on screen are those of `lastSearch`, which is the last
     * request sent; a non-empty `lastSearch` was sent at some point.
     */
    ghost predicate Valid()
      reads this
    {
      (HasData(mutation) ==> |requests| > 0 && lastSearch == requests[|requests| - 1]) &&
      (lastSearch == [] || lastSearch in requests)
    }

    constructor ()
      ensures Valid()
      ensures categories == [] && lastSearch == [] && category == ""
      ensures mutation == Idle && requests == []
    {
      categories, lastSearch, category := [], [], "";
      mutation := Idle;
      requests := [];
    }

    /** The input's `onChange`: the typed text becomes the input value. */
    method ChangeInput(text: string)
      requires Valid()
      modifies this
      ensures Valid()
      ensures category == text
      ensures categories == old(categories) && lastSearch == old(lastSearch)
      ensures mutation == old(mutation) && requests == old(requests)
    {
      category := text;
    }

    /** `handleAddCategorySubmit`: a non-empty input is appended and cleared. */
    method HandleAddCategorySubmit()
      requires Valid()
      modifies this
      ensures Valid()
      ensures old(category) == "" ==> categories == old(categories) && category == old(category)
      ensures old(category) != "" ==> categories == old(categories) + [old(category)] && category == ""
      ensures lastSearch == old(lastSearch) && mutation == old(mutation) && requests == old(requests)
    {
      if |category| == 0 {
        return;
      }
      var submitted := category;
      category := "";
      categories := categories + [submitted];
    }

    /** `handleDelCategory(target)`. */
    method HandleDelCategory(target: int)
      requires Valid()
      modifies this
      ensures Valid()
      ensures categories == Removed(old(categories), target)
      ensures category == old(category) && lastSearch == old(lastSearch)
      ensures mutation == old(mutation) && requests == old(requests)
    {
      categories := Removed(categories, target);
    }

    /**
     * `handleProductSearch`: nothing when the list equals the last one
     * searched; otherwise one request with the current list, and the list
     * becomes `lastSearch` only when the reply (`None`: rejected) arrives.
     */
    method HandleProductSearch(reply: Option<seq<ProductRecord>>) returns (sent: bool)
      requires Valid()
      modifies this
      ensures Valid()
      ensures sent <==> old(lastSearch) != old(categories)
      ensures !sent ==> lastSearch == old(lastSearch) && mutation == old(mutation) && requests == old(requests)
      ensures sent ==> requests == old(requests) + [old(categories)]
      ensures sent && reply.Some? ==> lastSearch == old(categories) && mutation == Succeeded(reply.value)
      ensures sent && reply.None? ==> lastSearch == old(lastSearch) && mutation == Failed
      ensures categories == old(categories) && category == old(category)
    {
      if lastSearch == categories {
        return false;
      }
      sent := true;
      requests := requests + [categories];
      match reply
      case None =>
        mutation := Failed;
      case Some(data) =>
        mutation := Succeeded(data);
        lastSearch := categories;
    }

    /** `handleProductClear`: empty lists and an idle request; the input is kept. */
    method HandleProductClear()
      requires Valid()
      modifies this
      ensures Valid()
      ensures categories == [] && lastSearch == [] && mutation == Idle
      ensures category == old(category) && requests == old(requests)
    {
      categories := [];
      lastSearch := [];
      mutation := Idle;
    }

    /** A click on "Buscar Produtos": ignored while the button is disabled. */
    method ClickSearch(reply: Option<seq<ProductRecord>>) returns (sent: bool)
      requires Valid()
      modifies this
      ensures Valid()
      ensures sent <==> !SearchDisabled(old(categories)) && old(lastSearch) != old(categories)
      ensures sent ==> requests == old(requests) + [old(categories)] && old(categories) != []
      ensures sent && reply.Some? ==> lastSearch == old(categories) && mutation == Succeeded(reply.value)
      ensures sent && reply.None? ==> lastSearch == old(lastSearch) && mutation == Failed
      ensures !sent ==> lastSearch == old(lastSearch) && mutation == old(mutation) && requests == old(requests)
      ensures categories == old(categories) && category == old(category)
    {
      if SearchDisabled(categories) {
        return false;
      }
      sent := HandleProductSearch(reply);
    }

    /**
     * Two clicks on "Buscar Produtos" with nothing edited in between: once
     * the first request succeeds, the second click sends nothing.
     */
    method ClickSearchTwice(reply: Option<seq<ProductRecord>>, again: Option<seq<ProductRecord>>)
      returns (first: bool, second: bool)
      requires Valid()
      requires reply.Some?
      modifies this
      ensures Valid()
      ensures first ==> !second
      ensures !first ==> !second && requests == old(requests)
      ensures categories == old(categories) && category == old(category)
    {
      first := ClickSearch(reply);
      second := ClickSearch(again);
    }

    /** A click on "Limpar Produtos": ignored while the button is disabled. */
    method ClickClear() returns (cleared: bool)
      requires Valid()
      modifies this
      ensures Valid()
      ensures cleared <==> !ClearDisabled(old(categories), old(mutation))
      ensures cleared ==> categories == [] && lastSearch == [] && mutation == Idle
      ensures !cleared ==> categories == old(categories) && lastSearch == old(lastSearch) && mutation == old(mutation)
      ensures category == old(category) && requests == old(requests)
    {
      if ClearDisabled(categories, mutation) {
        return false;
      }
      HandleProductClear();
      cleared := true;
    }

    /** A click on "Exportar CSV": the handler only runs when results exist, and changes nothing. */
    method ClickExport() returns (exported: bool)
      ensures exported <==> mutation.Succeeded?
    {
      exported := !ExportDisabled(mutation);
    }
  }
}
