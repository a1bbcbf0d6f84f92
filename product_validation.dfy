/**
 * The product rules of ProductCatalogApi/Services/ProductValidationService.cs:
 * every rule is checked, without stopping at the first failure, and each failed
 * rule adds its message, in the order name, price, category, unit.
 */
module ProductValidation {
  import opened Wrappers
  import opened Text
  import opened Sequences
  import opened CatalogModels

  const NameMessage: string := "Product name is required and must be between 1 and 100 characters"
  const PriceMessage: string := "Product price must be greater than 0"
  const CategoryMessage: string := "Valid category is required"
  const UnitMessage: string := "Unit is required"

  /** The four messages in the order the rules run. */
  const AllMessages: seq<string> := [NameMessage, PriceMessage, CategoryMessage, UnitMessage]

  /** `IsValidPrice`: positive and at most 99999.99, both ends as written. */
  predicate IsValidPrice(price: real): (r: bool)
    ensures r ==> 0.0 < price < 100000.0
  {
    0.0 < price <= 99999.99
  }

  /**
   * `IsValidName`: not null, not all whitespace, and at most 100 characters before
   * any trimming, so a valid name holds a character that is not whitespace.
   */
  predicate IsValidName(name: Option<string>): (r: bool)
    ensures r ==> name.Some? && |name.value| <= 100
    ensures r ==> exists i | 0 <= i < |name.value| :: !IsDotNetWhitespace(name.value[i])
  {
    !IsNullOrWhiteSpace(name) && |name.value| <= 100
  }

  /** The price limits: a cent and 99999.99 pass, zero and 100000 do not. */
  lemma PriceLimits()
    ensures IsValidPrice(0.01) && IsValidPrice(99999.99)
    ensures !IsValidPrice(0.0) && !IsValidPrice(100000.0) && !IsValidPrice(-0.01)
  {
  }

  /** A valid name has between 1 and 100 characters, as its message says. */
  lemma ValidNameLength(name: Option<string>)
    requires IsValidName(name)
    ensures name.Some? && 1 <= |name.value| <= 100
  {
  }

  /** Yet a name of that length can fail: the whitespace rule is not in the message. */
  lemma BlankNameInvalid()
    ensures !IsValidName(Some(" ")) && |" "| == 1
  {
  }

  /** All four rules hold. */
  predicate MeetsAllRules(p: CatalogProduct) {
    IsValidName(p.name) && IsValidPrice(p.price) && p.categoryId > 0 && !IsNullOrWhiteSpace(p.unit)
  }

  lemma MessagesDistinct()
    ensures NameMessage != PriceMessage && NameMessage != CategoryMessage && NameMessage != UnitMessage
    ensures PriceMessage != CategoryMessage && PriceMessage != UnitMessage && CategoryMessage != UnitMessage
  {
    assert |NameMessage| == 65 && |PriceMessage| == 36 && |CategoryMessage| == 26 && |UnitMessage| == 16;
  }

  /**
   * `ValidateProductAsync`: a message for each failed rule and only for those, in
   * rule order; none at all exactly when every rule holds.
   */
  method ValidateProduct(p: CatalogProduct) returns (errors: seq<string>)
    ensures NameMessage in errors <==> !IsValidName(p.name)
    ensures PriceMessage in errors <==> !IsValidPrice(p.price)
    ensures CategoryMessage in errors <==> p.categoryId <= 0
    ensures UnitMessage in errors <==> IsNullOrWhiteSpace(p.unit)
    ensures IsSubsequence(errors, AllMessages)
    ensures errors == [] <==> MeetsAllRules(p)
  {
    errors := [];
    if !IsValidName(p.name) {
      errors := errors + [NameMessage];
    }
    if !IsValidPrice(p.price) {
      errors := errors + [PriceMessage];
    }
    if p.categoryId <= 0 {
      errors := errors + [CategoryMessage];
    }
    if IsNullOrWhiteSpace(p.unit) {
      errors := errors + [UnitMessage];
    }
    RuleOrderKept(!IsValidName(p.name), !IsValidPrice(p.price), p.categoryId <= 0, IsNullOrWhiteSpace(p.unit), errors);
    FailedRuleMessages(!IsValidName(p.name), !IsValidPrice(p.price), p.categoryId <= 0, IsNullOrWhiteSpace(p.unit), errors);
  }

  /** The messages appended for a set of failed rules name exactly those rules. */
  lemma FailedRuleMessages(name: bool, price: bool, category: bool, unit: bool, errors: seq<string>)
    requires errors == (if name then [NameMessage] else []) + (if price then [PriceMessage] else [])
                     + (if category then [CategoryMessage] else []) + (if unit then [UnitMessage] else [])
    ensures NameMessage in errors <==> name
    ensures PriceMessage in errors <==> price
    ensures CategoryMessage in errors <==> category
    ensures UnitMessage in errors <==> unit
    ensures errors == [] <==> !name && !price && !category && !unit
  {
    MessagesDistinct();
  }

  /** The messages of any set of failed rules, appended in rule order, form a subsequence of the four. */
  lemma RuleOrderKept(name: bool, price: bool, category: bool, unit: bool, errors: seq<string>)
    requires errors == (if name then [NameMessage] else []) + (if price then [PriceMessage] else [])
                     + (if category then [CategoryMessage] else []) + (if unit then [UnitMessage] else [])
    ensures IsSubsequence(errors, AllMessages)
  {
    MessagesDistinct();
    var tail3 := AllMessages[1..];
    var tail2 := AllMessages[2..];
    var tail1 := AllMessages[3..];
    var e3 := (if category then [CategoryMessage] else []) + (if unit then [UnitMessage] else []);
    var e2 := (if price then [PriceMessage] else []) + e3;
    assert IsSubsequence(if unit then [UnitMessage] else [], tail1) by {
      SubsequenceReflexive(tail1);
    }
    assert IsSubsequence(e3, tail2) by {
      if category {
        assert e3[1..] == (if unit then [UnitMessage] else []);
        assert tail2[1..] == tail1;
      } else if unit {
        assert tail2[1..] == tail1;
        assert IsSubsequence(e3, tail1);
      }
    }
    assert IsSubsequence(e2, tail3) by {
      if price {
        assert e2[1..] == e3;
        assert tail3[1..] == tail2;
      } else if e3 != [] {
        assert e2 == e3;
        assert tail3[1..] == tail2;
      }
    }
    if name {
      assert errors[1..] == e2;
      assert AllMessages[1..] == tail3;
    } else {
      assert errors == e2;
      if e2 != [] {
        assert AllMessages[1..] == tail3;
      }
    }
  }

  /** `IsValidProductAsync`: valid exactly when validation reports no message. */
  method IsValidProduct(p: CatalogProduct) returns (valid: bool)
    ensures valid <==> MeetsAllRules(p)
  {
    var errors := ValidateProduct(p);
    valid := |errors| == 0;
  }
}
