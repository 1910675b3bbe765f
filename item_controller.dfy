/** The item handlers (controllers/itemController.js) over an in-memory items collection: the
    code derivation of `createItem`, creation, the sorted listing, update and delete. */
module ItemController {
  import opened Wrappers
  import opened Schema
  import opened Calendar
  import opened Text
  import opened Decimal
  import opened Numbering
  import opened Seqs
  import opened ItemModel

  /** The stored codes, in stored order. */
  function Codes(s: seq<Item>): (r: seq<string>)
    ensures |r| == |s| && forall i :: 0 <= i < |s| ==> r[i] == s[i].code
  {
    seq(|s|, i requires 0 <= i < |s| => s[i].code)
  }

  /** `String(NaN).padStart(3, '0')` is `"NaN"`. */
  const NaNCode: string := "ITEM-NaN"

  /** The code derivation of `createItem` (lines 7-12): take the greatest stored code in
      string order, `parseInt` the piece after its first `-`, add one and pad to three digits;
      `ITEM-001` when there is no stored code. A piece without leading digits is NaN, and the
      code becomes `ITEM-NaN`. */
  function NextItemCode(codes: seq<string>): string {
    if codes == [] then Code("ITEM", 1)
    else
      var last := MaxLex(codes);
      if last == "" then Code("ITEM", 1)
      else
        var parts := Split(last, '-');
        var lastNum := if |parts| > 1 then ParseInt(parts[1]) else None;
        match lastNum
        case Some(n) => Code("ITEM", n + 1)
        case None => NaNCode
  }

  /** The codes `ITEM-nnn` of a list of numbers. */
  function ItemCodes(nums: seq<nat>): (r: seq<string>)
    ensures |r| == |nums| && forall i :: 0 <= i < |nums| ==> r[i] == Code("ITEM", nums[i])
  {
    seq(|nums|, i requires 0 <= i < |nums| => Code("ITEM", nums[i]))
  }

  function MaxNat(nums: seq<nat>): (m: nat)
    requires |nums| > 0
    ensures m in nums && forall x :: x in nums ==> x <= m
  {
    if |nums| == 1 then nums[0]
    else
      var rest := MaxNat(nums[1..]);
      assert forall x :: x in nums ==> x == nums[0] || x in nums[1..];
      if nums[0] < rest then rest else nums[0]
  }

  /** An element no smaller than every other is the maximum. */
  lemma MaxNatIsUpperElement(nums: seq<nat>, k: nat)
    requires k < |nums| && forall j :: 0 <= j < |nums| ==> nums[j] <= nums[k]
    ensures nums[k] == MaxNat(nums)
  {
    var m := MaxNat(nums);
    var j :| 0 <= j < |nums| && nums[j] == m;
    assert nums[k] in nums;
  }

  /** Round trip of the suffix: the piece after the `-` of `ITEM-` and a padded number parses
      back to that number. */
  lemma {:induction false} ItemSuffixRoundTrip(n: nat)
    ensures Split(Code("ITEM", n), '-') == ["ITEM", Pad3(n)]
    ensures ParseInt(Split(Code("ITEM", n), '-')[1]) == Some(n)
  {
    Pad3Shape(n);
    assert '-' !in Pad3(n) by {
      forall i | 0 <= i < |Pad3(n)| ensures Pad3(n)[i] != '-' { assert IsDigit(Pad3(n)[i]); }
    }
    assert Code("ITEM", n) == "ITEM" + ['-'] + Pad3(n);
    SplitAtSeparator("ITEM", '-', Pad3(n));
    Pad3RoundTrip(n);
  }

  /** When the greatest stored code is `ITEM-` and a number, the next code is that number plus one. */
  lemma NextFollowsGreatest(codes: seq<string>, n: nat)
    requires codes != [] && MaxLex(codes) == Code("ITEM", n)
    ensures NextItemCode(codes) == Code("ITEM", n + 1)
  {
    ItemSuffixRoundTrip(n);
  }

  /** `ITEM-` and a padded number compare as the padded numbers do. */
  lemma ItemCodeOrder(a: nat, b: nat)
    ensures LexLess(Code("ITEM", a), Code("ITEM", b)) <==> LexLess(Pad3(a), Pad3(b))
  {
    assert Code("ITEM", a) == "ITEM-" + Pad3(a) && Code("ITEM", b) == "ITEM-" + Pad3(b);
    LexLessPrefix("ITEM-", Pad3(a), Pad3(b));
  }

  /** While every stored number has three digits, the string order of the codes is the
      numeric order of their numbers. */
  lemma ItemCodesOrderNumerically(nums: seq<nat>)
    requires forall i :: 0 <= i < |nums| ==> nums[i] < 1000
    ensures forall i, j :: 0 <= i < |nums| && 0 <= j < |nums| ==>
      (LexLess(ItemCodes(nums)[i], ItemCodes(nums)[j]) <==> nums[i] < nums[j])
  {
    forall i, j | 0 <= i < |nums| && 0 <= j < |nums|
      ensures LexLess(ItemCodes(nums)[i], ItemCodes(nums)[j]) <==> nums[i] < nums[j]
    {
      ItemCodeOrder(nums[i], nums[j]);
      Pad3Order(nums[i], nums[j]);
    }
  }

  /** When string order mirrors numeric order, the greatest string carries the greatest number. */
  lemma GreatestCodeHoldsGreatestNumber(codes: seq<string>, nums: seq<nat>, k: nat)
    requires |codes| == |nums| && k < |codes| && codes[k] == MaxLex(codes)
    requires forall i, j :: 0 <= i < |nums| && 0 <= j < |nums| ==> (LexLess(codes[i], codes[j]) <==> nums[i] < nums[j])
    ensures forall j :: 0 <= j < |nums| ==> nums[j] <= nums[k]
  {
    forall j | 0 <= j < |nums| ensures nums[j] <= nums[k] {
      assert codes[j] in codes;
      assert !LexLess(codes[k], codes[j]);
    }
  }

  /** A number above every stored one gives a code that is not stored. */
  lemma AboveAllIsFresh(nums: seq<nat>, n: nat)
    requires forall i :: 0 <= i < |nums| ==> nums[i] < n
    ensures Code("ITEM", n) !in ItemCodes(nums)
  {
    var codes := ItemCodes(nums);
    forall j | 0 <= j < |nums| ensures codes[j] != Code("ITEM", n) {
      CodeRoundTrip("ITEM", nums[j]);
      CodeRoundTrip("ITEM", n);
    }
  }

  /** While every stored number has three digits, the next code is the greatest number plus
      one, and it is not stored yet. */
  lemma ThreeDigitRegime(nums: seq<nat>)
    requires nums != [] && forall i :: 0 <= i < |nums| ==> nums[i] < 1000
    ensures NextItemCode(ItemCodes(nums)) == Code("ITEM", MaxNat(nums) + 1)
    ensures Code("ITEM", MaxNat(nums) + 1) !in ItemCodes(nums)
  {
    GreatestCodeHoldsMax(nums);
    NextAfterMaxNumber(nums);
    MaxPlusOneIsFresh(nums);
  }

  /** Once the greatest code holds the greatest number, the next code is that number plus one. */
  lemma {:induction false} NextAfterMaxNumber(nums: seq<nat>)
    requires nums != [] && MaxLex(ItemCodes(nums)) == Code("ITEM", MaxNat(nums))
    ensures NextItemCode(ItemCodes(nums)) == Code("ITEM", MaxNat(nums) + 1)
  {
    NextFollowsGreatest(ItemCodes(nums), MaxNat(nums));
  }

  /** While every stored number has three digits, the greatest code holds the greatest number. */
  lemma GreatestCodeHoldsMax(nums: seq<nat>)
    requires nums != [] && forall i :: 0 <= i < |nums| ==> nums[i] < 1000
    ensures MaxLex(ItemCodes(nums)) == Code("ITEM", MaxNat(nums))
  {
    var k := GreatestIndex(nums);
  }

  /** One more than the greatest stored number gives a code that is not stored. */
  lemma MaxPlusOneIsFresh(nums: seq<nat>)
    requires nums != []
    ensures Code("ITEM", MaxNat(nums) + 1) !in ItemCodes(nums)
  {
    var m := MaxNat(nums);
    forall i | 0 <= i < |nums| ensures nums[i] < m + 1 {
      assert nums[i] in nums;
    }
    AboveAllIsFresh(nums, m + 1);
  }

  /** The position of the greatest code among three-digit codes holds the greatest number. */
  lemma GreatestIndex(nums: seq<nat>) returns (k: nat)
    requires nums != [] && forall i :: 0 <= i < |nums| ==> nums[i] < 1000
    ensures k < |nums| && ItemCodes(nums)[k] == MaxLex(ItemCodes(nums)) && nums[k] == MaxNat(nums)
    ensures forall j :: 0 <= j < |nums| ==> nums[j] <= nums[k]
  {
    var codes := ItemCodes(nums);
    k :| 0 <= k < |nums| && codes[k] == MaxLex(codes);
    ItemCodesOrderNumerically(nums);
    GreatestCodeHoldsGreatestNumber(codes, nums, k);
    MaxNatIsUpperElement(nums, k);
  }

  /** The derivation is max-based, not count-based: with ITEM-001, ITEM-002 and ITEM-007
      stored, the next code is ITEM-008. */
  lemma MaxBasedNotCountBased()
    ensures NextItemCode(ItemCodes([1, 2, 7])) == Code("ITEM", 8)
  {
    ThreeDigitRegime([1, 2, 7]);
    assert MaxNat([1, 2, 7]) == 7 by {
      assert 7 in [1, 2, 7];
    }
  }

  lemma {:induction false} Digits1000()
    ensures Digits(1000) == "1000" && Digits(999) == "999"
  {
    assert Digits(1) == "1" && Digits(10) == "10" && Digits(100) == "100";
    assert Digits(9) == "9" && Digits(99) == "99";
  }

  /** Up to 1000, every code but ITEM-999 itself sorts below ITEM-999; in particular
      ITEM-1000 does. */
  lemma BelowItem999(n: nat)
    requires n <= 1000
    ensures LexLess(Code("ITEM", n), Code("ITEM", 999)) <==> n != 999
  {
    ItemCodeOrder(n, 999);
    if n < 1000 {
      Pad3Order(n, 999);
    } else {
      Digits1000();
      Pad3Shape(999);
      Pad3Shape(1000);
      assert Pad3(1000) == "1000" && Pad3(999) == "999";
      assert LexLess(Pad3(1000), Pad3(999));
    }
  }

  /** Past 999 string order breaks: once ITEM-999 and ITEM-1000 are stored (and nothing
      larger), ITEM-1000 sorts below ITEM-999, the derivation proposes ITEM-1000 again, and
      the unique index refuses it. */
  lemma ItemThousandCollides(nums: seq<nat>)
    requires 999 in nums && 1000 in nums
    requires forall i :: 0 <= i < |nums| ==> nums[i] <= 1000
    ensures NextItemCode(ItemCodes(nums)) == Code("ITEM", 1000)
    ensures Code("ITEM", 1000) in ItemCodes(nums)
  {
    var codes := ItemCodes(nums);
    var k :| 0 <= k < |nums| && codes[k] == MaxLex(codes);
    var i999 :| 0 <= i999 < |nums| && nums[i999] == 999;
    var i1000 :| 0 <= i1000 < |nums| && nums[i1000] == 1000;
    assert codes[i999] in codes && codes[i1000] == Code("ITEM", 1000);
    BelowItem999(nums[k]);
    NextFollowsGreatest(codes, 999);
  }

  /** The sort key of `getItems`: ascending code. */
  function CodeOrder(): (Item, Item) -> bool {
    (a: Item, b: Item) => !LexLess(b.code, a.code)
  }

  lemma CodeOrderIsTotalPreorder()
    ensures TotalPreorder(CodeOrder())
  {
    forall a: Item, b: Item ensures CodeOrder()(a, b) || CodeOrder()(b, a) {
      if LexLess(a.code, b.code) { LexLessAsymmetric(a.code, b.code); }
    }
    forall a: Item, b: Item, c: Item | CodeOrder()(a, b) && CodeOrder()(b, c)
      ensures CodeOrder()(a, c)
    {
      LexNotLessTransitive(a.code, b.code, c.code);
    }
  }

  /** `findById(id)`: the position of the item with that id. */
  function IndexOfId(s: seq<Item>, id: nat): (r: Option<nat>)
    ensures r.Some? ==> r.value < |s| && s[r.value].id == id
    ensures r.None? ==> forall i :: 0 <= i < |s| ==> s[i].id != id
  {
    IndexWhere(s, (it: Item) => it.id == id)
  }

  predicate CodeTakenByOther(s: seq<Item>, i: nat, code: string) {
    exists j :: 0 <= j < |s| && j != i && s[j].code == code
  }

  /** The document `createItem` hands to `Item.create`: the whole body, with the derived
      code in place of any `code` the client sent. */
  function NewDoc(body: Body, code: string): (doc: Body)
    ensures StringAt(doc, "code") == Given(code)
    ensures forall k :: k != "code" ==> (k in doc <==> k in body)
    ensures forall k :: k != "code" && k in body ==> doc[k] == body[k]
  {
    body["code" := JStr(code)]
  }

  /** Removing one document keeps the remaining ones in id order and keeps their codes distinct. */
  lemma RemoveKeepsOrder(s: seq<Item>, i: nat)
    requires i < |s|
    requires UniqueCodes(s)
    requires forall a, b :: 0 <= a < b < |s| ==> s[a].id < s[b].id
    ensures UniqueCodes(RemoveAt(s, i))
    ensures forall a, b :: 0 <= a < b < |RemoveAt(s, i)| ==> RemoveAt(s, i)[a].id < RemoveAt(s, i)[b].id
  {
    var r := RemoveAt(s, i);
    forall a, b | 0 <= a < b < |r|
      ensures r[a].code != r[b].code && r[a].id < r[b].id
    {
      var a2 := if a < i then a else a + 1;
      var b2 := if b < i then b else b + 1;
      assert r[a] == s[a2] && r[b] == s[b2];
    }
  }

  /** The items collection. */
  class ItemStore {
    var items: seq<Item>
    var nextId: nat

    /** Ids increase in insertion order and stay below `nextId`; every item passes the
        schema's validators and codes obey the unique index. */
    ghost predicate Valid()
      reads this
    {
      UniqueCodes(items) &&
      (forall i :: 0 <= i < |items| ==> Conforms(items[i])) &&
      (forall i, j :: 0 <= i < j < |items| ==> items[i].id < items[j].id) &&
      (forall i :: 0 <= i < |items| ==> items[i].id < nextId)
    }

    constructor ()
      ensures Valid() && items == []
    {
      items := [];
      nextId := 0;
    }

    /** `createItem`: the derived code replaces any code in the body; a failed validation or
        a code already stored is 400 and stores nothing; otherwise the item is appended and
        returned with 201. */
    method CreateItem(body: Body, today: Date) returns (r: Outcome<Item>)
      requires Valid()
      modifies this
      ensures Valid()
      ensures var code := NextItemCode(Codes(old(items)));
        match Create(NewDoc(body, code), old(nextId), today)
        case None => r == Err(400) && items == old(items)
        case Some(it) =>
          if CodeTaken(old(items), code) then r == Err(400) && items == old(items)
          else r == Ok(201, it) && items == old(items) + [it] && it.code == code
    {
      var code := NextItemCode(Codes(items));
      var created := Create(NewDoc(body, code), nextId, today);
      if created.None? || CodeTaken(items, code) {
        return Err(400);
      }
      items := items + [created.value];
      nextId := nextId + 1;
      return Ok(201, created.value);
    }

    /** `getItems`: every stored item, in ascending code order. */
    method GetItems() returns (r: seq<Item>)
      ensures SortedBy(r, CodeOrder())
      ensures multiset(r) == multiset(items)
    {
      CodeOrderIsTotalPreorder();
      r := SortBy(items, CodeOrder());
    }

    /** `updateItem`: the update is cast and validated first, so an invalid update is 400
        even for an unknown id; an unknown id is 404; an update whose code another item holds
        is refused by the unique index, 400; otherwise the item is replaced in place, with
        `updatedAt` set to today. Nothing changes on any failure. */
    method UpdateItem(id: nat, update: Body, today: Date) returns (r: Outcome<Item>)
      requires Valid()
      modifies this
      ensures Valid() && nextId == old(nextId)
      ensures !UpdateValidates(update) ==> r == Err(400) && items == old(items)
      ensures UpdateValidates(update) ==>
        match IndexOfId(old(items), id)
        case None => r == Err(404) && items == old(items)
        case Some(i) =>
          var it := Patch(old(items)[i], update, today);
          it.Some? &&
          if CodeTakenByOther(old(items), i, it.value.code) then r == Err(400) && items == old(items)
          else r == Ok(200, it.value) && items == old(items)[i := it.value]
    {
      if !UpdateValidates(update) {
        return Err(400);
      }
      var k := IndexOfId(items, id);
      if k.None? {
        return Err(404);
      }
      var i := k.value;
      PatchSucceedsIffValidates(items[i], update, today);
      var it := Patch(items[i], update, today);
      if CodeTakenByOther(items, i, it.value.code) {
        return Err(400);
      }
      items := items[i := it.value];
      return Ok(200, it.value);
    }

    /** `deleteItem`: an unknown id is 404 and changes nothing; otherwise exactly that item
        is removed. */
    method DeleteItem(id: nat) returns (r: Outcome<()>)
      requires Valid()
      modifies this
      ensures Valid() && nextId == old(nextId)
      ensures match IndexOfId(old(items), id)
        case None => r == Err(404) && items == old(items)
        case Some(i) => r == Ok(200, ()) && items == RemoveAt(old(items), i)
    {
      var k := IndexOfId(items, id);
      if k.None? {
        return Err(404);
      }
      var i := k.value;
      RemoveKeepsOrder(items, i);
      items := RemoveAt(items, i);
      return Ok(200, ());
    }
  }
}
