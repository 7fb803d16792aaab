/**
 * The data service: the fixed test roster, and the mapping of the players
 * answered by the players endpoint to reel entries (places 4 to 10 of the
 * answer, identifiers as decimal text, equal weights summing to 1).
 */
module WheelDataModel {
  import opened Models

  /** Where the roster comes from. */
  datatype DataSource = Api | Test

  /** One record of the players endpoint. */
  datatype Player = Player(id: int, nickname: string, rankName: string, playerStatus: string,
                           dotaRank: string, avatarUrl: string, totalScore: int, scoreResult: int)

  const API_URL: string := "/api/players"

  /** The answer is cut to the half-open index range [3, 10). */
  const WINDOW_START: nat := 3
  const WINDOW_END: nat := 10

  function Min(a: int, b: int): int
  {
    if a <= b then a else b
  }

  // ---------------------------------------------------------------------
  // Identifiers: a numeric player id becomes its decimal text.
  // ---------------------------------------------------------------------

  function DigitChar(d: nat): char
    requires d < 10
  {
    ('0' as int + d) as char
  }

  predicate IsDigit(c: char)
  {
    '0' <= c <= '9'
  }

  /** Decimal text of a natural number, without leading zeros. */
  function NatToString(n: nat): (s: string)
    ensures |s| > 0
    ensures forall i :: 0 <= i < |s| ==> IsDigit(s[i])
    decreases n
  {
    if n < 10 then [DigitChar(n)] else NatToString(n / 10) + [DigitChar(n % 10)]
  }

  /** Value of a string of decimal digits, read most significant first. */
  function ParseNat(s: string): int
  {
    if |s| == 0 then 0 else ParseNat(s[..|s| - 1]) * 10 + (s[|s| - 1] as int - '0' as int)
  }

  /** Decimal text of an integer: a minus sign before the digits of a negative one. */
  function IdString(id: int): (s: string)
    ensures |s| > 0
    ensures s[0] == '-' <==> id < 0
  {
    if id < 0 then "-" + NatToString(-id) else NatToString(id)
  }

  function ParseId(s: string): int
  {
    if |s| > 0 && s[0] == '-' then -ParseNat(s[1..]) else ParseNat(s)
  }

  lemma {:induction false} ParseNatToString(n: nat)
    ensures ParseNat(NatToString(n)) == n
    decreases n
  {
    if n >= 10 {
      var prefix := NatToString(n / 10);
      var s := prefix + [DigitChar(n % 10)];
      assert s[..|s| - 1] == prefix;
      ParseNatToString(n / 10);
    }
  }

  /** The identifier text reads back as the player's id. */
  lemma ParseIdString(id: int)
    ensures ParseId(IdString(id)) == id
  {
    if id < 0 {
      var s := IdString(id);
      assert s[1..] == NatToString(-id);
      ParseNatToString(-id);
    } else {
      ParseNatToString(id);
    }
  }

  /** Distinct player ids give distinct identifier texts. */
  lemma IdStringInjective(a: int, b: int)
    ensures IdString(a) == IdString(b) <==> a == b
  {
    ParseIdString(a);
    ParseIdString(b);
  }

  // ---------------------------------------------------------------------
  // The players endpoint.
  // ---------------------------------------------------------------------

  /** The part of the answer put on the reel, clamped to the answer's length. */
  function Window(players: seq<Player>): (w: seq<Player>)
    ensures |players| <= WINDOW_START ==> w == []
    ensures |players| > WINDOW_START ==> |w| == Min(|players|, WINDOW_END) - WINDOW_START
    ensures forall i :: 0 <= i < |w| ==> w[i] == players[WINDOW_START + i]
  {
    players[Min(WINDOW_START, |players|)..Min(WINDOW_END, |players|)]
  }

  /** A player as a reel entry with the base weight 1. */
  function ToWheelItem(p: Player): (w: WheelItem)
    ensures ParseId(w.id) == p.id
    ensures w.nickname == p.nickname && w.avatarUrl == p.avatarUrl && w.probability == 1.0
  {
    ParseIdString(p.id);
    WheelItem(IdString(p.id), p.nickname, p.avatarUrl, 1.0)
  }

  /** The reel entries for an answer, before the weights are normalised. */
  function MapPlayers(players: seq<Player>): (items: seq<WheelItem>)
    ensures |items| == |Window(players)|
    ensures forall i :: 0 <= i < |items| ==> items[i] == ToWheelItem(players[WINDOW_START + i])
  {
    var w := Window(players);
    seq(|w|, i requires 0 <= i < |w| => ToWheelItem(w[i]))
  }

  /**
   * The roster built from an answer: one entry per player of the window, in
   * order, with the player's id as text, nickname and avatar, and each base
   * weight divided by the number of entries, so that the weights sum to 1.
   */
  method MapApiPlayers(players: seq<Player>) returns (items: seq<WheelItem>)
    ensures |items| == |Window(players)|
    ensures |items| <= WINDOW_END - WINDOW_START
    ensures |players| <= WINDOW_START ==> items == []
    ensures forall i :: 0 <= i < |items| ==>
              && items[i].id == IdString(players[WINDOW_START + i].id)
              && items[i].nickname == players[WINDOW_START + i].nickname
              && items[i].avatarUrl == players[WINDOW_START + i].avatarUrl
              && items[i].probability == 1.0 / (|items| as real)
    ensures |items| > 0 ==> items == WithProbability(MapPlayers(players), 1.0 / (|items| as real))
    ensures |items| > 0 ==> TotalProbability(items) == 1.0
  {
    var wheelPlayers := Window(players);
    items := MapPlayers(players);
    ghost var base := items;
    var totalProbability := |items|;
    if totalProbability > 0 {
      var i := 0;
      while i < |items|
        invariant 0 <= i <= |items| == |base|
        invariant forall j :: 0 <= j < i ==> items[j] == base[j].(probability := 1.0 / (totalProbability as real))
        invariant forall j :: i <= j < |items| ==> items[j] == base[j]
      {
        items := items[i := items[i].(probability := items[i].probability / totalProbability as real)];
        i := i + 1;
      }
      assert items == WithProbability(base, 1.0 / (totalProbability as real));
      UniformWeightsSumToOne(base);
    }
  }

  /** Players with distinct ids give a roster in which each entry is found by its identifier. */
  lemma DistinctPlayersGiveUniqueIds(players: seq<Player>)
    requires forall i, j :: WINDOW_START <= i < j < Min(|players|, WINDOW_END) ==> players[i].id != players[j].id
    ensures UniqueIds(MapPlayers(players))
  {
    var items := MapPlayers(players);
    forall i, j | 0 <= i < j < |items|
      ensures items[i].id != items[j].id
    {
      IdStringInjective(players[WINDOW_START + i].id, players[WINDOW_START + j].id);
    }
  }

  // ---------------------------------------------------------------------
  // The test roster.
  // ---------------------------------------------------------------------

  function TestItem(id: string, nickname: string): WheelItem
  {
    WheelItem(id, nickname, "https://picsum.photos/seed/" + id + "/56/56", 0.0)
  }

  /** The seven fixtures, all with weight 0 until normalised. */
  const TEST_ITEMS: seq<WheelItem> := [
    TestItem("test1", "TestUser1"),
    TestItem("test2", "MockPlayer"),
    TestItem("test3", "StaticCat"),
    TestItem("test4", "DataDog"),
    TestItem("test5", "DevOne"),
    TestItem("test6", "TestUser2"),
    TestItem("test7", "FinalMock")
  ]

  /** The fixtures are seven entries with distinct identifiers. */
  lemma TestItemsWellFormed()
    ensures |TEST_ITEMS| == 7
    ensures UniqueIds(TEST_ITEMS)
  {
    var ids := ["test1", "test2", "test3", "test4", "test5", "test6", "test7"];
    assert forall i :: 0 <= i < 7 ==> TEST_ITEMS[i].id == ids[i];
    forall i, j | 0 <= i < j < 7
      ensures TEST_ITEMS[i].id != TEST_ITEMS[j].id
    {
      assert ids[i][4] != ids[j][4];
    }
  }

  /** Setting every weight to the same value a second time changes nothing. */
  lemma {:induction false} UniformWeightsIdempotent(items: seq<WheelItem>, p: real)
    ensures WithProbability(WithProbability(items, p), p) == WithProbability(items, p)
  {
    var once := WithProbability(items, p);
    var twice := WithProbability(once, p);
    assert forall i :: 0 <= i < |items| ==> twice[i] == once[i];
  }

  /**
   * The service. The test roster is a field because normalising it updates
   * the weight of each shared fixture object in place: the copy handed out is
   * a copy of the list, not of the entries.
   */
  class WheelDataService {
    var testItems: seq<WheelItem>
    const apiUrl: string

    constructor ()
      ensures testItems == TEST_ITEMS
      ensures apiUrl == API_URL
    {
      testItems := TEST_ITEMS;
      apiUrl := API_URL;
    }

    /**
     * The test branch: every fixture's weight becomes 1 / (number of
     * fixtures), in the fixtures themselves, and the roster handed out holds
     * exactly those fixtures.
     */
    method GetTestItems() returns (normalizedTestItems: seq<WheelItem>)
      modifies this`testItems
      ensures |old(testItems)| > 0 ==>
                testItems == WithProbability(old(testItems), 1.0 / (|old(testItems)| as real))
      ensures |old(testItems)| == 0 ==> testItems == old(testItems)
      ensures normalizedTestItems == testItems
      ensures |testItems| > 0 ==> TotalProbability(testItems) == 1.0
    {
      var totalItems := |testItems|;
      if totalItems > 0 {
        ghost var base := testItems;
        var i := 0;
        while i < |testItems|
          invariant 0 <= i <= |testItems| == totalItems
          invariant forall j :: 0 <= j < i ==> testItems[j] == base[j].(probability := 1.0 / (totalItems as real))
          invariant forall j :: i <= j < |testItems| ==> testItems[j] == base[j]
        {
          testItems := testItems[i := testItems[i].(probability := 1.0 / totalItems as real)];
          i := i + 1;
        }
        assert testItems == WithProbability(base, 1.0 / (totalItems as real));
        UniformWeightsSumToOne(base);
      }
      normalizedTestItems := testItems;
    }

    /**
     * getWheelItems: the test roster, or the roster mapped from the
     * endpoint's answer `answer` (the request itself is not modelled); the
     * source defaults to the endpoint.
     */
    method GetWheelItems(answer: seq<Player>, source: DataSource := Api) returns (items: seq<WheelItem>)
      modifies this`testItems
      ensures source == Test ==> items == testItems
      ensures source == Test && |old(testItems)| > 0 ==>
                testItems == WithProbability(old(testItems), 1.0 / (|old(testItems)| as real))
      ensures source == Test && |old(testItems)| == 0 ==> testItems == old(testItems)
      ensures source == Api ==> testItems == old(testItems)
      ensures source == Api && |items| > 0 ==> items == WithProbability(MapPlayers(answer), 1.0 / (|items| as real))
      ensures source == Api ==> |items| == |Window(answer)|
      ensures |items| > 0 ==> TotalProbability(items) == 1.0
    {
      if source == Test {
        items := GetTestItems();
        return;
      }
      items := MapApiPlayers(answer);
    }
  }
}
