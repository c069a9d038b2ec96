/**
 * The saved payment cards (src/screens/PaymentMethodsScreen.tsx): a list that
 * starts with two mock cards, where "Set Default" marks exactly the chosen
 * card as default and "Remove" (once confirmed) filters a card out.
 */
module PaymentMethodsScreen {

  /** A saved card (`cardType` is its `type` field). */
  datatype Card = Card(id: string, cardType: string, last4: string, isDefault: bool)

  /** `mockCards`, the list the screen starts with. */
  const MockCards: seq<Card> := [Card("1", "Visa", "1234", true), Card("2", "Mastercard", "5678", false)]

  predicate HasCard(cards: seq<Card>, id: string) {
    exists i | 0 <= i < |cards| :: cards[i].id == id
  }

  predicate UniqueCardIds(cards: seq<Card>) {
    forall i, j | 0 <= i < j < |cards| :: cards[i].id != cards[j].id
  }

  /** The number of cards marked default. */
  function DefaultCount(cards: seq<Card>): nat {
    if cards == [] then 0
    else DefaultCount(cards[..|cards| - 1]) + (if cards[|cards| - 1].isDefault then 1 else 0)
  }

  /** `cards.map(card => ({ ...card, isDefault: card.id === id }))`. */
  function WithDefault(cards: seq<Card>, id: string): seq<Card> {
    if cards == [] then []
    else
      var last := cards[|cards| - 1];
      WithDefault(cards[..|cards| - 1], id) + [last.(isDefault := last.id == id)]
  }

  /** `cards.filter(c => c.id !== id)`. */
  function WithoutCard(cards: seq<Card>, id: string): seq<Card> {
    if cards == [] then []
    else
      var last := cards[|cards| - 1];
      WithoutCard(cards[..|cards| - 1], id) + (if last.id != id then [last] else [])
  }

  // ------------------------------------------------------------ set default

  /**
   * Setting the default keeps the list's length, order and every field but
   * `isDefault`, which becomes true exactly for the cards with the chosen id.
   */
  lemma {:induction false} SetDefaultKeepsCards(cards: seq<Card>, id: string)
    ensures |WithDefault(cards, id)| == |cards|
    ensures forall i | 0 <= i < |cards| ::
              var c := WithDefault(cards, id)[i];
              c.id == cards[i].id && c.cardType == cards[i].cardType && c.last4 == cards[i].last4 &&
              (c.isDefault <==> cards[i].id == id)
  {
    if cards != [] {
      SetDefaultKeepsCards(cards[..|cards| - 1], id);
    }
  }

  /** With unique ids and the id present, exactly one card is default afterwards. */
  lemma {:induction false} SetDefaultLeavesOneDefault(cards: seq<Card>, id: string)
    requires UniqueCardIds(cards)
    ensures HasCard(cards, id) ==> DefaultCount(WithDefault(cards, id)) == 1
    ensures !HasCard(cards, id) ==> DefaultCount(WithDefault(cards, id)) == 0
  {
    if cards != [] {
      var init := cards[..|cards| - 1];
      var last := cards[|cards| - 1];
      assert UniqueCardIds(init);
      SetDefaultLeavesOneDefault(init, id);
      DefaultCountAppend(WithDefault(init, id), [last.(isDefault := last.id == id)]);
      if last.id == id {
        assert !HasCard(init, id) by {
          forall i | 0 <= i < |init| ensures init[i].id != id {
            assert cards[i] == init[i];
          }
        }
      } else {
        assert HasCard(cards, id) <==> HasCard(init, id) by {
          if HasCard(cards, id) {
            var k :| 0 <= k < |cards| && cards[k].id == id;
            assert init[k] == cards[k];
          }
          if HasCard(init, id) {
            var k :| 0 <= k < |init| && init[k].id == id;
            assert cards[k] == init[k];
          }
        }
      }
    }
  }

  /** Setting the same default twice is setting it once. */
  lemma SetDefaultIdempotent(cards: seq<Card>, id: string)
    ensures WithDefault(WithDefault(cards, id), id) == WithDefault(cards, id)
  {
    var once := WithDefault(cards, id);
    SetDefaultKeepsCards(cards, id);
    SetDefaultKeepsCards(once, id);
    assert forall i | 0 <= i < |once| :: WithDefault(once, id)[i] == once[i];
  }

  // ----------------------------------------------------------------- remove

  /** Removal keeps exactly the cards with another id. */
  lemma {:induction false} RemoveCardMembers(cards: seq<Card>, id: string)
    ensures forall c :: c in WithoutCard(cards, id) <==> c in cards && c.id != id
  {
    if cards != [] {
      var init := cards[..|cards| - 1];
      RemoveCardMembers(init, id);
      assert cards == init + [cards[|cards| - 1]];
    }
  }

  /** Removal keeps relative order: removing from a concatenation removes from each part in place. */
  lemma {:induction false} RemoveCardAppend(a: seq<Card>, b: seq<Card>, id: string)
    ensures WithoutCard(a + b, id) == WithoutCard(a, id) + WithoutCard(b, id)
    decreases |b|
  {
    if b == [] {
      assert a + b == a;
    } else {
      RemoveCardAppend(a, b[..|b| - 1], id);
      assert (a + b)[..|a + b| - 1] == a + b[..|b| - 1];
    }
  }

  /** Removing a card whose id no card has changes nothing. */
  lemma {:induction false} RemoveAbsentCard(cards: seq<Card>, id: string)
    requires !HasCard(cards, id)
    ensures WithoutCard(cards, id) == cards
  {
    if cards != [] {
      var init := cards[..|cards| - 1];
      AbsentFromInit(cards, id);
      RemoveAbsentCard(init, id);
      assert cards == init + [cards[|cards| - 1]];
    }
  }

  lemma AbsentFromInit(cards: seq<Card>, id: string)
    requires cards != [] && !HasCard(cards, id)
    ensures !HasCard(cards[..|cards| - 1], id) && cards[|cards| - 1].id != id
  {
    var init := cards[..|cards| - 1];
    forall i | 0 <= i < |init| ensures init[i].id != id {
      assert cards[i] == init[i];
    }
  }

  /** Removal never adds a default; removing the only default card leaves none (none is reassigned). */
  lemma {:induction false} RemoveCardDefaults(cards: seq<Card>, id: string)
    ensures DefaultCount(WithoutCard(cards, id)) <= DefaultCount(cards)
    ensures (forall i | 0 <= i < |cards| && cards[i].isDefault :: cards[i].id == id) ==>
              DefaultCount(WithoutCard(cards, id)) == 0
  {
    if cards != [] {
      var init := cards[..|cards| - 1];
      var last := cards[|cards| - 1];
      RemoveCardDefaults(init, id);
      DefaultCountAppend(WithoutCard(init, id), if last.id != id then [last] else []);
      assert forall i | 0 <= i < |init| :: init[i] == cards[i];
    }
  }

  lemma DefaultCountAppend(a: seq<Card>, b: seq<Card>)
    requires |b| <= 1
    ensures DefaultCount(a + b) == DefaultCount(a) + DefaultCount(b)
  {
    if b != [] {
      assert (a + b)[..|a + b| - 1] == a;
      assert b[..0] == [];
    } else {
      assert a + b == a;
    }
  }

  /** Removal keeps the ids unique. */
  lemma {:induction false} RemoveCardKeepsUnique(cards: seq<Card>, id: string)
    requires UniqueCardIds(cards)
    ensures UniqueCardIds(WithoutCard(cards, id))
  {
    if cards != [] {
      var init := cards[..|cards| - 1];
      var last := cards[|cards| - 1];
      assert UniqueCardIds(init);
      RemoveCardKeepsUnique(init, id);
      RemoveCardMembers(init, id);
      if last.id != id {
        var p := WithoutCard(init, id);
        var r := p + [last];
        forall i, j | 0 <= i < j < |r| ensures r[i].id != r[j].id {
          if j == |p| {
            assert r[i] in init;
            var k :| 0 <= k < |init| && init[k] == r[i];
            assert cards[k] == r[i];
          }
        }
      }
    }
  }

  /** The screen's `cards` state. */
  class PaymentMethods {
    var cards: seq<Card>

    /** Ids are unique and at most one card is default. */
    ghost predicate Valid()
      reads this
    {
      UniqueCardIds(cards) && DefaultCount(cards) <= 1
    }

    constructor ()
      ensures Valid() && cards == MockCards
    {
      cards := MockCards;
      assert MockCards[..1] == [MockCards[0]];
    }

    /** `handleSetDefault(id)`. */
    method SetDefault(id: string)
      requires Valid()
      modifies this
      ensures Valid()
      ensures cards == WithDefault(old(cards), id)
      ensures DefaultCount(cards) == if HasCard(old(cards), id) then 1 else 0
      ensures forall i | 0 <= i < |cards| :: cards[i].isDefault <==> cards[i].id == id
    {
      SetDefaultLeavesOneDefault(cards, id);
      SetDefaultKeepsCards(cards, id);
      var next := WithDefault(cards, id);
      assert UniqueCardIds(next) by {
        forall i, j | 0 <= i < j < |next| ensures next[i].id != next[j].id {
          assert next[i].id == cards[i].id && next[j].id == cards[j].id;
        }
      }
      cards := next;
    }

    /** The confirmed "Remove" of `handleRemove(id)`. */
    method Remove(id: string)
      requires Valid()
      modifies this
      ensures Valid()
      ensures cards == WithoutCard(old(cards), id)
      ensures forall c :: c in cards <==> c in old(cards) && c.id != id
      ensures !HasCard(old(cards), id) ==> cards == old(cards)
    {
      RemoveCardKeepsUnique(cards, id);
      RemoveCardDefaults(cards, id);
      RemoveCardMembers(cards, id);
      if !HasCard(cards, id) {
        RemoveAbsentCard(cards, id);
      }
      cards := WithoutCard(cards, id);
    }
  }
}
