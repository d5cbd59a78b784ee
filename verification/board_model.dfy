/**
 * The pedal board as values (src/composables/usePedalBoard.ts): the instance record,
 * channel sanitising, the stored board document, and the list operations the board
 * store applies to its instances.
 */
module BoardModel {
  import opened Wrappers
  import opened Json
  import opened Midi
  import opened Seqs
  import opened PedalConfig
  import opened Host

  /** One pedal on the board; `device` is null (`None`) when it names no device. */
  datatype PedalInstance = PedalInstance(id: string, device: Option<string>, channel: MidiChannel, createdAt: string)

  function Ids(instances: seq<PedalInstance>): (ids: seq<string>)
    ensures |ids| == |instances|
    ensures forall i :: 0 <= i < |ids| ==> ids[i] == instances[i].id
  {
    seq(|instances|, i requires 0 <= i < |instances| => instances[i].id)
  }

  /**
   * `sanitizeChannel(value)`: `None` stands for null, undefined and every non-number.
   * A valid channel is kept; anything else becomes channel 1.
   */
  function SanitizeChannel(value: Option<real>): (c: MidiChannel)
    ensures value.Some? && IsMidiChannel(value.value) ==> c as real == value.value
    ensures !(value.Some? && IsMidiChannel(value.value)) ==> c == 1
  {
    if value.Some? && IsMidiChannel(value.value) then value.value.Floor else 1
  }

  /** Every channel survives sanitising, so sanitising twice is sanitising once. */
  lemma SanitizeKeepsChannels(c: MidiChannel, value: Option<real>)
    ensures SanitizeChannel(Some(c as real)) == c
    ensures SanitizeChannel(Some(SanitizeChannel(value) as real)) == SanitizeChannel(value)
  {
    MidiChannelLiterals(c as real);
    var s := SanitizeChannel(value);
    MidiChannelLiterals(s as real);
  }

  // ---------------------------------------------------------------------------
  // The stored board document `{ instances: [...] }` under BOARD_STORAGE_KEY

  function DeviceJson(device: Option<string>): JsonValue {
    if device.Some? then JStr(device.value) else JNull
  }

  /** What `JSON.stringify` keeps of an instance. */
  function InstanceJson(inst: PedalInstance): JsonValue {
    JObj(map["id" := JStr(inst.id), "device" := DeviceJson(inst.device),
             "channel" := JNum(inst.channel as real), "createdAt" := JStr(inst.createdAt)])
  }

  function BoardItems(instances: seq<PedalInstance>): (items: seq<JsonValue>)
    ensures |items| == |instances|
    ensures forall i :: 0 <= i < |items| ==> items[i] == InstanceJson(instances[i])
  {
    seq(|instances|, i requires 0 <= i < |instances| => InstanceJson(instances[i]))
  }

  /** The document `persist(next)` stores. */
  function BoardJson(instances: seq<PedalInstance>): JsonValue {
    JObj(map["instances" := JArr(BoardItems(instances))])
  }

  /**
   * The array `load` maps over, or `None` where `load` returns null before mapping:
   * nothing stored, the empty text, unparsable text, or no `instances` array.
   */
  function StoredBoardItems(item: Option<Stored>): (r: Option<seq<JsonValue>>)
    ensures !Truthy(item) ==> r.None?
    ensures r.Some? ==>
      && Truthy(item) && Parse(item.value).Some?
      && OptGet(Parse(item.value).value, "instances") == Defined(JArr(r.value))
  {
    if !Truthy(item) then None
    else match Parse(item.value)
      case None => None
      case Some(doc) =>
        var p := OptGet(doc, "instances");
        if p.Defined? && p.value.JArr? then Some(p.value.items) else None
  }

  /** `load` throws (and returns null) when an item is null: reading `item.id` fails. */
  predicate Restorable(items: seq<JsonValue>) {
    forall i :: 0 <= i < |items| ==> items[i] != JNull
  }

  /**
   * The instance `load` rebuilds from one stored item, given the id it would generate and
   * the current time: a string id and creation time are kept, a non-string device becomes
   * null, and the channel is sanitised.
   */
  function RestoredInstance(item: JsonValue, freshId: string, now: string): (inst: PedalInstance)
    ensures inst.device.Some? <==> OptGet(item, "device").Defined? && OptGet(item, "device").value.JStr?
    ensures inst.device.Some? ==> inst.device.value == OptGet(item, "device").value.s
    ensures OptGet(item, "createdAt").Defined? && OptGet(item, "createdAt").value.JStr? ==> inst.createdAt == OptGet(item, "createdAt").value.s
    ensures !(OptGet(item, "createdAt").Defined? && OptGet(item, "createdAt").value.JStr?) ==> inst.createdAt == now
    ensures OptGet(item, "id").Defined? && OptGet(item, "id").value.JStr? ==> inst.id == OptGet(item, "id").value.s
    ensures !(OptGet(item, "id").Defined? && OptGet(item, "id").value.JStr?) ==> inst.id == freshId
    ensures inst.channel == SanitizeChannel(NumberProp(item, "channel"))
  {
    PedalInstance(StringProp(item, "id").GetOr(freshId), StringProp(item, "device"),
                  SanitizeChannel(NumberProp(item, "channel")), StringProp(item, "createdAt").GetOr(now))
  }

  /** How many items lack a string id, i.e. how many fresh ids restoring them consumes. */
  function MissingIdCount(items: seq<JsonValue>): (n: nat)
    ensures n <= |items|
  {
    if items == [] then 0
    else MissingIdCount(items[..|items| - 1]) + (if StringProp(items[|items| - 1], "id").None? then 1 else 0)
  }

  /** The board `load` rebuilds, the k-th missing id being the k-th fresh one from `issued`. */
  function RestoredBoard(items: seq<JsonValue>, issued: nat, now: string): (board: seq<PedalInstance>)
    ensures |board| == |items|
    ensures forall i {:trigger board[i]} :: 0 <= i < |items| ==> board[i] == RestoredInstance(items[i], IdToken(issued + MissingIdCount(items[..i])), now)
  {
    if items == [] then []
    else
      var k := |items| - 1;
      assert forall i :: 0 <= i < k ==> items[..k][..i] == items[..i];
      RestoredBoard(items[..k], issued, now) + [RestoredInstance(items[k], IdToken(issued + MissingIdCount(items[..k])), now)]
  }

  /** Restoring one more item appends its instance and counts its missing id. */
  lemma RestoredStep(items: seq<JsonValue>, i: nat, issued: nat, now: string)
    requires i < |items|
    ensures RestoredBoard(items[..i + 1], issued, now)
         == RestoredBoard(items[..i], issued, now) + [RestoredInstance(items[i], IdToken(issued + MissingIdCount(items[..i])), now)]
    ensures MissingIdCount(items[..i + 1]) == MissingIdCount(items[..i]) + if StringProp(items[i], "id").None? then 1 else 0
  {
    assert items[..i + 1][..i] == items[..i];
  }

  /** The index of the first null item, where `load` throws; |items| when there is none. */
  function FirstNull(items: seq<JsonValue>): (k: nat)
    ensures k <= |items| && Restorable(items[..k])
    ensures k < |items| ==> items[k] == JNull
  {
    if items == [] || items[0] == JNull then 0 else 1 + FirstNull(items[1..])
  }

  /** What `load()` returns for the stored board text, from `issued` ids handed out. */
  function LoadedBoard(stored: Option<Stored>, issued: nat, now: string): (r: Option<seq<PedalInstance>>)
    ensures StoredBoardItems(stored).None? ==> r.None?
    ensures r.Some? <==> StoredBoardItems(stored).Some? && Restorable(StoredBoardItems(stored).value)
    ensures r.Some? ==> r.value == RestoredBoard(StoredBoardItems(stored).value, issued, now)
    ensures r.Some? ==> |r.value| == |StoredBoardItems(stored).value|
  {
    match StoredBoardItems(stored)
    case None => None
    case Some(items) =>
      assert items[..|items|] == items;
      if FirstNull(items) == |items| then Some(RestoredBoard(items, issued, now)) else None
  }

  /** How many fresh ids `load()` consumes: one per item without a string id, up to the first null item. */
  function IdsUsedByLoad(stored: Option<Stored>): nat {
    match StoredBoardItems(stored)
    case None => 0
    case Some(items) => MissingIdCount(items[..FirstNull(items)])
  }

  /** Every instance survives being stored and restored. */
  lemma InstanceRoundTrip(inst: PedalInstance, freshId: string, now: string)
    ensures StringProp(InstanceJson(inst), "id") == Some(inst.id)
    ensures RestoredInstance(InstanceJson(inst), freshId, now) == inst
  {
    SanitizeKeepsChannels(inst.channel, None);
  }

  lemma {:induction false} NoMissingIds(instances: seq<PedalInstance>)
    ensures MissingIdCount(BoardItems(instances)) == 0
  {
    if instances != [] {
      var k := |instances| - 1;
      assert BoardItems(instances)[..k] == BoardItems(instances[..k]);
      NoMissingIds(instances[..k]);
      InstanceRoundTrip(instances[k], "", "");
    }
  }

  lemma RestoredBoardItems(board: seq<PedalInstance>, issued: nat, now: string)
    ensures RestoredBoard(BoardItems(board), issued, now) == board
  {
    var items := BoardItems(board);
    var restored := RestoredBoard(items, issued, now);
    forall i | 0 <= i < |board|
      ensures restored[i] == board[i]
    {
      InstanceRoundTrip(board[i], IdToken(issued + MissingIdCount(items[..i])), now);
    }
  }

  /** Round trip: `load` after `persist(board)` gives back exactly board, using no fresh id. */
  lemma BoardRoundTrip(board: seq<PedalInstance>, issued: nat, now: string)
    ensures LoadedBoard(Some(Doc(BoardJson(board))), issued, now) == Some(board)
    ensures IdsUsedByLoad(Some(Doc(BoardJson(board)))) == 0
  {
    var items := BoardItems(board);
    assert StoredBoardItems(Some(Doc(BoardJson(board)))) == Some(items);
    NoMissingIds(board);
    NoNullItems(items);
    assert items[..|items|] == items;
    RestoredBoardItems(board, issued, now);
  }

  lemma {:induction false} NoNullItems(items: seq<JsonValue>)
    requires forall i :: 0 <= i < |items| ==> items[i].JObj?
    ensures FirstNull(items) == |items|
  {
    if items != [] {
      NoNullItems(items[1..]);
    }
  }

  // ---------------------------------------------------------------------------
  // Channel allocation

  /** The instance `instances.find(inst => inst.id === id)`. */
  function FindById(instances: seq<PedalInstance>, id: string): (r: Option<PedalInstance>)
    ensures r.Some? ==> r.value in instances && r.value.id == id
    ensures r.None? <==> forall inst :: inst in instances ==> inst.id != id
    ensures r.Some? ==> r.value == instances[IndexOfId(instances, id)]
  {
    if instances == [] then None
    else if instances[0].id == id then Some(instances[0])
    else FindById(instances[1..], id)
  }

  /** The channels of the instances whose id differs from `excludeId` (`None`: undefined). */
  function UsedChannels(instances: seq<PedalInstance>, excludeId: Option<string>): set<int> {
    set inst | inst in instances && (excludeId.None? || inst.id != excludeId.value) :: inst.channel as int
  }

  /** Where `nextChannel(excludeId)` falls back when all sixteen channels are taken. */
  function FallbackChannel(instances: seq<PedalInstance>, excludeId: Option<string>): (c: MidiChannel)
    ensures excludeId.Some? && excludeId.value != "" && FindById(instances, excludeId.value).Some?
      ==> c == FindById(instances, excludeId.value).value.channel
    ensures !(excludeId.Some? && excludeId.value != "" && FindById(instances, excludeId.value).Some?) ==> c == 1
  {
    if excludeId.Some? && excludeId.value != "" then
      var found := FindById(instances, excludeId.value);
      if found.Some? then found.value.channel else 1
    else 1
  }

  /** The least channel from `from` on that is not in used, if any. */
  function FirstFree(used: set<int>, from: int): (r: Option<MidiChannel>)
    requires 1 <= from <= 17
    ensures r.Some? ==> from <= r.value && r.value !in used && forall k :: from <= k < r.value ==> k in used
    ensures r.None? ==> forall k :: from <= k <= 16 ==> k in used
    decreases 17 - from
  {
    if from == 17 then None
    else if from !in used then Some(from)
    else FirstFree(used, from + 1)
  }

  /** What `nextChannel(excludeId)` returns. */
  function NextFreeChannel(instances: seq<PedalInstance>, excludeId: Option<string>): (c: MidiChannel)
    ensures (exists k :: 1 <= k <= 16 && k !in UsedChannels(instances, excludeId)) ==>
      && c !in UsedChannels(instances, excludeId)
      && forall k :: 1 <= k < c ==> k in UsedChannels(instances, excludeId)
    ensures (forall k :: 1 <= k <= 16 ==> k in UsedChannels(instances, excludeId)) ==>
      c == FallbackChannel(instances, excludeId)
  {
    var free := FirstFree(UsedChannels(instances, excludeId), 1);
    if free.Some? then free.value else FallbackChannel(instances, excludeId)
  }

  /** The channel after ch in the cycle 1, 2, ..., 16, 1: `ch + 1`, or 1 when that is no channel. */
  function Successor(ch: MidiChannel): (r: MidiChannel)
    ensures r - 1 == ch % 16
    ensures IsMidiChannel((ch + 1) as real) ==> r == ch + 1
  {
    if IsMidiChannel((ch + 1) as real) then ch + 1 else 1
  }

  /** The channel `duplicateInstance` gives the copy of an instance on channel ch. */
  function DuplicateChannel(instances: seq<PedalInstance>, ch: MidiChannel): (c: MidiChannel)
    ensures Successor(ch) !in UsedChannels(instances, None) ==> c == Successor(ch)
    ensures Successor(ch) in UsedChannels(instances, None) ==> c == NextFreeChannel(instances, None)
  {
    var next := Successor(ch);
    if exists inst :: inst in instances && inst.channel == next then NextFreeChannel(instances, None) else next
  }

  /** While some channel is unused, a duplicate lands on an unused channel. */
  lemma DuplicateChannelIsFree(instances: seq<PedalInstance>, ch: MidiChannel, k: int)
    requires 1 <= k <= 16 && k !in UsedChannels(instances, None)
    ensures DuplicateChannel(instances, ch) !in UsedChannels(instances, None)
  {
  }

  /** An instance uses one channel, so a board uses at most as many channels as it has instances. */
  lemma {:induction false} UsedChannelsBound(instances: seq<PedalInstance>)
    ensures |UsedChannels(instances, None)| <= |instances|
  {
    if instances != [] {
      var init := instances[..|instances| - 1];
      var last := instances[|instances| - 1];
      UsedChannelsBound(init);
      assert instances == init + [last];
      assert UsedChannels(instances, None) == UsedChannels(init, None) + {last.channel as int};
    }
  }

  /** The numbers 1..n. */
  function UpTo(n: nat): (r: set<int>)
    ensures |r| == n
    ensures forall k :: k in r <==> 1 <= k <= n
  {
    if n == 0 then {} else UpTo(n - 1) + {n}
  }

  /** A set holding all sixteen channels has at least sixteen members. */
  lemma AllChannelsCount(used: set<int>)
    requires forall k :: 1 <= k <= 16 ==> k in used
    ensures |used| >= 16
  {
    var channels := UpTo(16);
    assert channels <= used;
    SubsetCount(channels, used);
  }

  lemma SubsetCount(small: set<int>, big: set<int>)
    requires small <= big
    ensures |small| <= |big|
  {
    var rest := big - small;
    assert big == rest + small;
    assert rest !! small;
  }

  /**
   * Instances added with no channel override get pairwise distinct channels while the
   * board holds fewer than sixteen; once all sixteen are taken, the next one gets channel 1.
   */
  lemma AddedChannelIsFree(instances: seq<PedalInstance>)
    ensures |instances| < 16 ==> NextFreeChannel(instances, None) !in UsedChannels(instances, None)
    ensures (forall k :: 1 <= k <= 16 ==> k in UsedChannels(instances, None)) ==> NextFreeChannel(instances, None) == 1
  {
    if |instances| < 16 {
      UsedChannelsBound(instances);
      if forall k :: 1 <= k <= 16 ==> k in UsedChannels(instances, None) {
        AllChannelsCount(UsedChannels(instances, None));
        assert false;
      }
    }
  }

  // ---------------------------------------------------------------------------
  // Creating, updating, removing and moving instances

  /** `device ?? listPedals()[0]?.value ?? null` */
  function CreatedDevice(catalog: seq<Profile>, device: Option<string>): (r: Option<string>)
    ensures device.Some? ==> r == device
    ensures device.None? ==> r == DefaultDevice(catalog)
  {
    if device.Some? then device else DefaultDevice(catalog)
  }

  /** The channel `createInstance` gives: the override, else the device's configured channel, sanitised. */
  function CreatedChannel(catalog: seq<Profile>, device: Option<string>, channelOverride: Option<real>): (c: MidiChannel)
    ensures channelOverride.Some? ==> c == SanitizeChannel(channelOverride)
    ensures channelOverride.None? ==> c == SanitizeChannel(ProfileChannel(catalog, device.GetOr("")))
  {
    SanitizeChannel(if channelOverride.Some? then channelOverride else ProfileChannel(catalog, device.GetOr("")))
  }

  /** The instance `createInstance()` makes with no arguments, as the n-th fresh id at time now. */
  function DefaultInstance(catalog: seq<Profile>, n: nat, now: string): (inst: PedalInstance)
    ensures inst.id == IdToken(n) && inst.device == DefaultDevice(catalog) && inst.createdAt == now
    ensures inst.channel == SanitizeChannel(ProfileChannel(catalog, DefaultDevice(catalog).GetOr("")))
  {
    PedalInstance(IdToken(n), CreatedDevice(catalog, None), CreatedChannel(catalog, CreatedDevice(catalog, None), None), now)
  }

  /** A field of a partial update: left undefined (`Keep`) or given. */
  datatype Patch<T> = Keep | Put(value: T)

  /**
   * `updateInstance(id, patch)`: the instances whose id matches get the given device
   * (null allowed) and the given channel, sanitised; everything else is kept.
   */
  function UpdatedInstances(instances: seq<PedalInstance>, id: string,
                            device: Patch<Option<string>>, channel: Patch<Option<real>>): (r: seq<PedalInstance>)
    ensures |r| == |instances| && Ids(r) == Ids(instances)
    ensures forall i :: 0 <= i < |r| ==> r[i].createdAt == instances[i].createdAt
    ensures forall i :: 0 <= i < |r| && instances[i].id != id ==> r[i] == instances[i]
    ensures forall i :: 0 <= i < |r| && instances[i].id == id ==>
      && r[i].device == (if device.Put? then device.value else instances[i].device)
      && r[i].channel == (if channel.Put? then SanitizeChannel(channel.value) else instances[i].channel)
  {
    seq(|instances|, i requires 0 <= i < |instances| =>
      var inst := instances[i];
      if inst.id == id then
        inst.(device := if device.Put? then device.value else inst.device,
              channel := if channel.Put? then SanitizeChannel(channel.value) else inst.channel)
      else inst)
  }

  /** An update that leaves both fields undefined changes nothing. */
  lemma EmptyPatchChangesNothing(instances: seq<PedalInstance>, id: string)
    ensures UpdatedInstances(instances, id, Keep, Keep) == instances
  {
  }

  /** `instances.filter(inst => inst.id !== id)` */
  function WithoutId(instances: seq<PedalInstance>, id: string): (r: seq<PedalInstance>)
    ensures |r| <= |instances|
    ensures forall x :: x in r <==> x in instances && x.id != id
    ensures (forall x :: x in instances ==> x.id != id) ==> r == instances
    ensures forall x {:trigger multiset(r)[x]} :: multiset(r)[x] == if x.id != id then multiset(instances)[x] else 0
  {
    if instances == [] then []
    else
      assert instances == [instances[0]] + instances[1..];
      (if instances[0].id != id then [instances[0]] else []) + WithoutId(instances[1..], id)
  }

  /** Removing keeps the other instances in their order. */
  lemma {:induction false} WithoutIdKeepsOrder(instances: seq<PedalInstance>, id: string)
    ensures IsSubsequence(WithoutId(instances, id), instances)
  {
    if instances != [] {
      var rest := WithoutId(instances[1..], id);
      WithoutIdKeepsOrder(instances[1..], id);
      if instances[0].id != id {
        assert WithoutId(instances, id) == [instances[0]] + rest;
        assert ([instances[0]] + rest)[1..] == rest;
      } else if rest != [] {
        assert WithoutId(instances, id) == [] + rest == rest;
        SubsequenceOfTail(rest, instances);
      }
    }
  }

  /** With distinct ids, removing one id takes away at most one instance. */
  lemma {:induction false} WithoutIdRemovesAtMostOne(instances: seq<PedalInstance>, id: string)
    requires NoDuplicates(Ids(instances))
    ensures |WithoutId(instances, id)| >= |instances| - 1
  {
    if instances != [] {
      assert NoDuplicates(Ids(instances[1..])) by {
        assert forall i :: 0 <= i < |instances| - 1 ==> Ids(instances[1..])[i] == Ids(instances)[i + 1];
      }
      WithoutIdRemovesAtMostOne(instances[1..], id);
      if instances[0].id == id {
        forall x | x in instances[1..] ensures x.id != id {
          var j :| 0 <= j < |instances[1..]| && instances[1..][j] == x;
          assert Ids(instances)[0] != Ids(instances)[j + 1];
        }
      }
    }
  }

  /** `instances.findIndex(inst => inst.id === id)`, -1 when absent. */
  function IndexOfId(instances: seq<PedalInstance>, id: string): (i: int)
    ensures -1 <= i < |instances|
    ensures i >= 0 ==> instances[i].id == id && forall j :: 0 <= j < i ==> instances[j].id != id
    ensures i < 0 ==> forall j :: 0 <= j < |instances| ==> instances[j].id != id
  {
    if instances == [] then -1
    else if instances[0].id == id then 0
    else var k := IndexOfId(instances[1..], id); if k < 0 then -1 else k + 1
  }

  datatype Direction = Up | Down

  /** The index `moveInstance` moves the instance at idx to, if it moves at all. */
  function MoveTarget(size: nat, idx: int, direction: Direction): (t: Option<nat>)
    ensures t.Some? ==> 0 <= idx < size && t.value < size
    ensures t.Some? <==> 0 <= idx < size && !(direction == Up && idx == 0) && !(direction == Down && idx == size - 1)
    ensures t.Some? ==> t.value == if direction == Up then idx - 1 else idx + 1
  {
    if idx < 0 || idx >= size then None
    else if direction == Up && idx == 0 then None
    else if direction == Down && idx == size - 1 then None
    else Some(if direction == Up then idx - 1 else idx + 1)
  }

  /**
   * The board after `moveInstance(id, direction)`: the first instance with that id trades
   * places with its neighbour, and nothing changes when there is none on that side.
   */
  function MovedInstances(instances: seq<PedalInstance>, id: string, direction: Direction): (r: seq<PedalInstance>)
    ensures |r| == |instances| && multiset(r) == multiset(instances)
    ensures MoveTarget(|instances|, IndexOfId(instances, id), direction).None? ==> r == instances
    ensures var idx := IndexOfId(instances, id);
      var t := MoveTarget(|instances|, idx, direction);
      t.Some? ==>
        && r[t.value] == instances[idx] && r[idx] == instances[t.value]
        && forall j :: 0 <= j < |r| && j != idx && j != t.value ==> r[j] == instances[j]
  {
    var idx := IndexOfId(instances, id);
    var t := MoveTarget(|instances|, idx, direction);
    if t.None? then instances
    else
      var r := instances[idx := instances[t.value]][t.value := instances[idx]];
      SwapIsPermutation(instances, idx, t.value);
      r
  }

  lemma SwapIsPermutation<T>(s: seq<T>, i: nat, j: nat)
    requires i < |s| && j < |s|
    ensures multiset(s[i := s[j]][j := s[i]]) == multiset(s)
  {
  }
}
