/**
 * The store search (`get_valid_games`) and the choice list built from its
 * result. The HTTP exchange itself is an input: the reply is either an
 * error or the decoded `items` array of the JSON body.
 */
module Search {
  import opened Wrappers
  import opened Strings

  /** One element of the reply's `items` array; a missing key is `None`. */
  datatype RawItem = RawItem(name: Option<string>, id: Option<int>)

  /** What the search request produced: a non-2xx status, any other failure
      (transport, JSON decoding), or the `items` array (`[]` when the body has
      no `items` key). */
  datatype SearchReply =
    | StatusError
    | RequestError
    | Payload(items: seq<RawItem>)

  /** The record kept for each hit: its name and its id as a string. */
  datatype Game = Game(name: string, id: string)

  /** A styled piece of a choice title. */
  datatype Fragment = Fragment(style: string, text: string)

  /** One entry of the selection list: its title and the game it returns. */
  datatype Choice = Choice(title: seq<Fragment>, value: Game)

  /** Indexing `item["name"]` and `item["id"]` succeeds. */
  predicate WellFormed(item: RawItem) {
    item.name.Some? && item.id.Some?
  }

  function ToGame(item: RawItem): (g: Game)
    requires WellFormed(item)
    ensures g.name == item.name.value && ParseInt(g.id) == item.id.value
    ensures g.id == IntToDecimal(item.id.value)
  {
    IntRoundTrip(item.id.value);
    Game(item.name.value, IntToDecimal(item.id.value))
  }

  /** The appending loop of `get_valid_games`: items are converted in server
      order until the first one whose keys are missing, whose `KeyError` ends
      the loop and leaves the games collected so far. */
  function MapItems(items: seq<RawItem>): seq<Game> {
    if items == [] || !WellFormed(items[0]) then []
    else [ToGame(items[0])] + MapItems(items[1..])
  }

  /** The games are the converted items of the longest well-formed prefix of
      the reply, one per item and in the same order: the list stops exactly
      at the first malformed item. */
  lemma {:induction false} MapItemsPrefix(items: seq<RawItem>)
    ensures var games := MapItems(items);
      |games| <= |items|
      && (forall k :: 0 <= k < |games| ==> WellFormed(items[k]) && games[k] == ToGame(items[k]))
      && (|games| < |items| ==> !WellFormed(items[|games|]))
  {
    if items != [] && WellFormed(items[0]) {
      MapItemsPrefix(items[1..]);
      var games := MapItems(items);
      var rest := MapItems(items[1..]);
      assert games == [ToGame(items[0])] + rest;
      forall k | 0 <= k < |games|
        ensures WellFormed(items[k]) && games[k] == ToGame(items[k])
      {
        if k > 0 {
          assert games[k] == rest[k - 1] && items[k] == items[1..][k - 1];
        }
      }
    }
  }

  /** The list `get_valid_games` returns for a reply. */
  function FoundGames(reply: SearchReply): seq<Game> {
    match reply
    case Payload(items) => MapItems(items)
    case _ => []
  }

  /** When every item is well formed, each one yields a game, in order. */
  lemma AllWellFormedKept(items: seq<RawItem>)
    requires forall k :: 0 <= k < |items| ==> WellFormed(items[k])
    ensures |MapItems(items)| == |items|
  {
    MapItemsPrefix(items);
  }

  /** Two distinct hits keep distinct string ids exactly when their numeric
      ids differ. */
  lemma StringIdsDistinguish(a: RawItem, b: RawItem)
    requires WellFormed(a) && WellFormed(b)
    ensures ToGame(a).id == ToGame(b).id <==> a.id == b.id
  {
    IntToDecimalInjective(a.id.value, b.id.value);
  }

  /** The mapping of a suffix that starts with a well-formed item. */
  lemma MapItemsFrom(items: seq<RawItem>, i: nat)
    requires i < |items| && WellFormed(items[i])
    ensures MapItems(items[i..]) == [ToGame(items[i])] + MapItems(items[i + 1..])
  {
    assert items[i..][1..] == items[i + 1..];
  }

  /** The mapping of a suffix that is empty or starts with a malformed item. */
  lemma MapItemsStop(items: seq<RawItem>, i: nat)
    requires i <= |items| && (i == |items| || !WellFormed(items[i]))
    ensures MapItems(items[i..]) == []
  {
  }

  method GetValidGames(reply: SearchReply) returns (found: seq<Game>)
    ensures found == FoundGames(reply)
  {
    found := [];
    if reply.Payload? {
      var items := reply.items;
      var i := 0;
      while i < |items| && WellFormed(items[i])
        invariant 0 <= i <= |items|
        invariant MapItems(items) == found + MapItems(items[i..])
      {
        var item := items[i];
        var game := ToGame(item);
        MapItemsFrom(items, i);
        found := found + [game];
        i := i + 1;
      }
      MapItemsStop(items, i);
    }
  }

  /** The title shown for a game: its name, a space and `(ID: <id>)`. */
  function ChoiceTitle(g: Game): seq<Fragment> {
    [Fragment("class:text", g.name), Fragment("class:text", " "), Fragment("fg:yellow", "(ID: " + g.id + ")")]
  }

  /** The selection list: one choice per game, in the order the search
      returned them, each choice returning its game. */
  function Choices(found: seq<Game>): (cs: seq<Choice>)
    ensures |cs| == |found|
    ensures forall k :: 0 <= k < |cs| ==> cs[k].value == found[k] && cs[k].title == ChoiceTitle(found[k])
  {
    seq(|found|, k requires 0 <= k < |found| => Choice(ChoiceTitle(found[k]), found[k]))
  }
}
