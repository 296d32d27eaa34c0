/**
 * The app component: the editable option list, the game state, the winner modal, the
 * spin request flag handed to the wheel, and the mute toggle, with one method per handler.
 * The app owns the wheel component and shares the audio manager with it.
 */
module AppComponent {

  import opened Types
  import opened Strings
  import opened AudioUtil
  import opened WheelComponent

  /** The palette new items take their colours from, in turn. */
  const Colors: seq<string> := [
    "#FF6B6B", "#4ECDC4", "#45B7D1", "#96CEB4",
    "#FFEEAD", "#FF9F43", "#54A0FF", "#5F27CD",
    "#FF5252", "#341F97"
  ]

  const MaxItems: nat := 10

  const DefaultItems: seq<WheelItem> := [
    WheelItem("1", "火锅", Colors[0]),
    WheelItem("2", "烧烤", Colors[1]),
    WheelItem("3", "奶茶", Colors[2]),
    WheelItem("4", "健身", Colors[3]),
    WheelItem("5", "睡觉", Colors[4]),
    WheelItem("6", "学习", Colors[5]),
    WheelItem("7", "看电影", Colors[6]),
    WheelItem("8", "玩游戏", Colors[7])
  ]

  /** A list the editor can reach from the defaults: one to ten items with distinct ids. */
  predicate ItemsOk(items: seq<WheelItem>) {
    1 <= |items| <= MaxItems && DistinctIds(items)
  }

  lemma DefaultItemsOk()
    ensures ItemsOk(DefaultItems)
  {
  }

  // ---- The option list, as values ----

  /**
   * The list after `addItem` with input `input` and new id `id`: unchanged when the trimmed
   * input is empty or the list is full; otherwise one item is appended, labelled with the
   * trimmed input and coloured with the next palette colour.
   */
  function WithAdded(items: seq<WheelItem>, input: string, id: string): (r: seq<WheelItem>)
    ensures Trim(input) == "" || |items| >= MaxItems ==> r == items
    ensures Trim(input) != "" && |items| < MaxItems ==>
      |r| == |items| + 1 && r[..|items|] == items &&
      r[|items|] == WheelItem(id, Trim(input), Colors[|items| % |Colors|])
  {
    if Trim(input) == "" || |items| >= MaxItems then items
    else items + [WheelItem(id, Trim(input), Colors[|items| % |Colors|])]
  }

  /** `items.filter(i => i.id !== id)`. */
  function Without(items: seq<WheelItem>, id: string): (r: seq<WheelItem>)
    ensures |r| <= |items|
  {
    if items == [] then []
    else (if items[0].id == id then [] else [items[0]]) + Without(items[1..], id)
  }

  /** The filter keeps exactly the items whose id differs. */
  lemma {:induction false} WithoutMembers(items: seq<WheelItem>, id: string)
    ensures forall x :: x in Without(items, id) <==> x in items && x.id != id
  {
    if items != [] {
      WithoutMembers(items[1..], id);
      assert items == [items[0]] + items[1..];
    }
  }

  /** The filter works item by item: filtering a concatenation filters each part and keeps them in order. */
  lemma {:induction false} WithoutAppend(a: seq<WheelItem>, b: seq<WheelItem>, id: string)
    ensures Without(a + b, id) == Without(a, id) + Without(b, id)
  {
    if a == [] {
      assert a + b == b;
    } else {
      assert (a + b)[1..] == a[1..] + b;
      WithoutAppend(a[1..], b, id);
    }
  }

  /** Removing an id that no item has keeps the list as it is. */
  lemma {:induction false} WithoutAbsent(items: seq<WheelItem>, id: string)
    requires id !in Ids(items)
    ensures Without(items, id) == items
  {
    if items != [] {
      WithoutAbsent(items[1..], id);
    }
  }

  /** The tail of a list with distinct ids has distinct ids, none of them the head's. */
  lemma DistinctTail(items: seq<WheelItem>)
    requires DistinctIds(items) && items != []
    ensures DistinctIds(items[1..]) && items[0].id !in Ids(items[1..])
  {
    var rest := items[1..];
    forall a, b | 0 <= a < b < |rest| ensures rest[a].id != rest[b].id {
      assert rest[a] == items[a + 1] && rest[b] == items[b + 1];
    }
    forall a | 0 <= a < |rest| ensures rest[a].id != items[0].id {
      assert rest[a] == items[a + 1];
    }
  }

  /** With distinct ids, removing the id of item `j` drops exactly that item and keeps the others in order. */
  lemma {:induction false} WithoutDistinct(items: seq<WheelItem>, j: nat)
    requires DistinctIds(items) && j < |items|
    ensures Without(items, items[j].id) == items[..j] + items[j + 1..]
  {
    var rest := items[1..];
    DistinctTail(items);
    if j == 0 {
      WithoutAbsent(rest, items[0].id);
      assert items[..0] + items[1..] == rest;
    } else {
      var id := items[j].id;
      assert rest[j - 1] == items[j];
      WithoutDistinct(rest, j - 1);
      assert Without(items, id) == [items[0]] + (rest[..j - 1] + rest[j..]);
      assert rest[j..] == items[j + 1..];
      assert [items[0]] + rest[..j - 1] == items[..j];
    }
  }

  lemma {:induction false} WithoutKeepsDistinct(items: seq<WheelItem>, id: string)
    requires DistinctIds(items)
    ensures DistinctIds(Without(items, id))
  {
    if items != [] {
      WithoutKeepsDistinct(items[1..], id);
      WithoutMembers(items[1..], id);
      DistinctTail(items);
      var rest := Without(items[1..], id);
      assert forall x :: x in rest ==> x.id != items[0].id;
    }
  }

  /** Duplicate ids would make one removal take several items; here both items go. */
  lemma DuplicateIdsEmptyTheList()
    ensures var items := [WheelItem("7", "a", Colors[0]), WheelItem("7", "b", Colors[1])];
      |items| > 1 && Without(items, "7") == []
  {
    var items := [WheelItem("7", "a", Colors[0]), WheelItem("7", "b", Colors[1])];
    assert items[1..][1..] == [];
  }

  /** The list after `removeItem(id)`: a list of one item is kept, any other is filtered. */
  function WithRemoved(items: seq<WheelItem>, id: string): (r: seq<WheelItem>)
    ensures |items| <= 1 ==> r == items
    ensures ItemsOk(items) ==> ItemsOk(r)
    ensures DistinctIds(items) && |items| > 1 ==>
      (id in Ids(items) ==> |r| == |items| - 1) && (id !in Ids(items) ==> r == items)
  {
    if |items| <= 1 then items
    else
      WithoutCount(items, id);
      Without(items, id)
  }

  lemma WithoutCount(items: seq<WheelItem>, id: string)
    ensures DistinctIds(items) ==> DistinctIds(Without(items, id))
    ensures DistinctIds(items) && id in Ids(items) ==> |Without(items, id)| == |items| - 1
    ensures id !in Ids(items) ==> Without(items, id) == items
  {
    if !DistinctIds(items) {
      if id !in Ids(items) {
        WithoutAbsent(items, id);
      }
      return;
    }
    WithoutKeepsDistinct(items, id);
    if id in Ids(items) {
      var j :| 0 <= j < |items| && items[j].id == id;
      WithoutDistinct(items, j);
    } else {
      WithoutAbsent(items, id);
    }
  }

  // ---- Sequences of edits ----

  datatype Edit = Add(input: string, id: string) | Remove(id: string)

  function ApplyEdit(items: seq<WheelItem>, e: Edit): seq<WheelItem> {
    match e
    case Add(input, id) => WithAdded(items, input, id)
    case Remove(id) => WithRemoved(items, id)
  }

  function ApplyEdits(items: seq<WheelItem>, es: seq<Edit>): seq<WheelItem>
    decreases |es|
  {
    if es == [] then items else ApplyEdits(ApplyEdit(items, es[0]), es[1..])
  }

  /** Every id an edit sequence adds is new at the moment it is added. */
  predicate FreshAdds(items: seq<WheelItem>, es: seq<Edit>)
    decreases |es|
  {
    es == [] ||
    ((es[0].Add? ==> es[0].id !in Ids(items)) && FreshAdds(ApplyEdit(items, es[0]), es[1..]))
  }

  lemma EditKeepsItemsOk(items: seq<WheelItem>, e: Edit)
    requires ItemsOk(items) && (e.Add? ==> e.id !in Ids(items))
    ensures ItemsOk(ApplyEdit(items, e))
  {
    match e
    case Add(input, id) =>
      var r := WithAdded(items, input, id);
      if r != items {
        assert ItemsOk(r) by {
          forall i, j | 0 <= i < j < |r| ensures r[i].id != r[j].id {
            assert r[i] == items[i];
            if j == |items| {
              assert items[i].id in Ids(items);
            } else {
              assert r[j] == items[j];
            }
          }
        }
      }
    case Remove(id) =>
  }

  /** From any reachable list, and so from the defaults, adds and removes keep one to ten items with distinct ids. */
  lemma {:induction false} EditsKeepItemsOk(items: seq<WheelItem>, es: seq<Edit>)
    requires ItemsOk(items) && FreshAdds(items, es)
    ensures ItemsOk(ApplyEdits(items, es))
    decreases |es|
  {
    if es != [] {
      EditKeepsItemsOk(items, es[0]);
      EditsKeepItemsOk(ApplyEdit(items, es[0]), es[1..]);
    }
  }

  lemma EditsFromDefaults(es: seq<Edit>)
    requires FreshAdds(DefaultItems, es)
    ensures 1 <= |ApplyEdits(DefaultItems, es)| <= MaxItems
  {
    DefaultItemsOk();
    EditsKeepItemsOk(DefaultItems, es);
  }

  // ---- The game state machine ----

  datatype UiEvent = SpinClicked | SpinCompleted | ModalClosed | OtherEvent

  /**
   * The game state after an event, with `n` items on the wheel. A spin click is refused while
   * spinning or with fewer than two items; the spin's completion always celebrates; closing
   * the modal always returns to idle; no other handler touches the state.
   */
  function NextState(s: GameState, e: UiEvent, n: nat): (t: GameState)
    ensures s == Celebrating && t != Celebrating <==> s == Celebrating && (e == ModalClosed || (e == SpinClicked && n >= 2))
    ensures s == Spinning && t != Spinning <==> s == Spinning && (e == SpinCompleted || e == ModalClosed)
    ensures t == Celebrating <==> e == SpinCompleted || (s == Celebrating && e != ModalClosed && (e != SpinClicked || n < 2))
    ensures e == OtherEvent ==> t == s
    ensures e == ModalClosed ==> t == Idle
    ensures e == SpinCompleted ==> t == Celebrating
    ensures e == SpinClicked && (s == Spinning || n < 2) ==> t == s
    ensures e == SpinClicked && s != Spinning && n >= 2 ==> t == Spinning
  {
    match e
    case SpinClicked => if s == Spinning || n < 2 then s else Spinning
    case SpinCompleted => Celebrating
    case ModalClosed => Idle
    case OtherEvent => s
  }

  // ---- The component ----

  class App {
    const audio: AudioManager
    const wheel: Wheel
    var items: seq<WheelItem>
    var inputText: string
    var gameState: GameState
    var result: Option<SpinResult>
    var shouldSpin: bool
    var muted: bool

    ghost predicate Valid()
      reads this, wheel
    {
      wheel.audio == audio && wheel.Valid()
    }

    /** The winner modal is open exactly while celebrating. */
    ghost predicate ModalIffCelebrating()
      reads this
    {
      result.Some? <==> gameState == Celebrating
    }

    /** The icon's mute flag and the audio manager's agree. */
    ghost predicate SoundInSync()
      reads this, audio
    {
      muted == audio.isMuted
    }

    /**
     * The app with its wheel and the one audio manager they share. In the program the manager is
     * a single instance built when its module loads, on `platform`; here it is built with the app.
     */
    constructor (platform: Platform)
      ensures Valid() && fresh(audio) && fresh(wheel)
      ensures items == DefaultItems && inputText == "" && gameState == Idle && result == None
      ensures !shouldSpin && !muted
      ensures ItemsOk(items) && ModalIffCelebrating() && SoundInSync() && audio.log == []
      ensures audio.ctx == if platform.Supported? then Some(AudioContext(platform.initial)) else None
      ensures wheel.currentRotation == 0.0 && wheel.live == {} && wheel.pending == [] && wheel.nextHandle == 0
    {
      var a := new AudioManager(platform);
      audio := a;
      wheel := new Wheel(a);
      items := DefaultItems;
      inputText := "";
      gameState := Idle;
      result := None;
      shouldSpin := false;
      muted := false;
      DefaultItemsOk();
    }

    /** The input's change handler. */
    method SetInputText(text: string)
      modifies this`inputText
      ensures inputText == text
    {
      inputText := text;
    }

    /** `addItem`, with `newId` standing for the timestamp id it takes. */
    method AddItem(newId: string)
      modifies this`items, this`inputText
      ensures items == WithAdded(old(items), old(inputText), newId)
      ensures inputText == if items == old(items) then old(inputText) else ""
      ensures old(ItemsOk(items)) && newId !in Ids(old(items)) ==> ItemsOk(items)
    {
      var trimmed := Trim(inputText);
      if trimmed == "" || |items| >= MaxItems {
        return;
      }
      assert ItemsOk(items) && newId !in Ids(items) ==> ItemsOk(WithAdded(items, inputText, newId)) by {
        if ItemsOk(items) && newId !in Ids(items) {
          EditKeepsItemsOk(items, Add(inputText, newId));
        }
      }
      items := items + [WheelItem(newId, trimmed, Colors[|items| % |Colors|])];
      inputText := "";
    }

    /** `removeItem(id)`. */
    method RemoveItem(id: string)
      modifies this`items
      ensures items == WithRemoved(old(items), id)
      ensures old(ItemsOk(items)) ==> ItemsOk(items)
    {
      if |items| <= 1 {
        return;
      }
      items := Without(items, id);
    }

    /** `handleSpinClick`: refused while spinning or with fewer than two items; otherwise asks the wheel to spin. */
    method HandleSpinClick()
      modifies this`gameState, this`result, this`shouldSpin
      ensures gameState == NextState(old(gameState), SpinClicked, |items|)
      ensures old(gameState) == Spinning || |items| < 2 ==>
        result == old(result) && shouldSpin == old(shouldSpin)
      ensures old(gameState) != Spinning && |items| >= 2 ==>
        gameState == Spinning && result == None && shouldSpin
      ensures old(ModalIffCelebrating()) ==> ModalIffCelebrating()
    {
      if gameState == Spinning || |items| < 2 {
        return;
      }
      gameState := Spinning;
      result := None;
      shouldSpin := true;
    }

    /** `onSpinComplete(winner)`: the fanfare is scheduled at audio time `now`, the winner shown. */
    method OnSpinComplete(winner: WheelItem, now: real)
      modifies this`result, this`gameState, audio`log
      ensures gameState == NextState(old(gameState), SpinCompleted, |items|) == Celebrating
      ensures result == Some(SpinResult(winner, None)) && ModalIffCelebrating()
      ensures audio.log == old(audio.log) + if audio.Audible() then WinVoices(now) else []
    {
      audio.PlayWin(now);
      result := Some(SpinResult(winner, None));
      gameState := Celebrating;
    }

    /** `closeModal`. */
    method CloseModal()
      modifies this`gameState, this`result
      ensures gameState == NextState(old(gameState), ModalClosed, |items|) == Idle
      ensures result == None && ModalIffCelebrating()
    {
      gameState := Idle;
      result := None;
    }

    /** `toggleSound`: both flags are set from the value before the toggle. */
    method ToggleSound()
      modifies this`muted, audio`isMuted
      ensures muted == !old(muted) && audio.isMuted == !old(muted)
      ensures SoundInSync()
    {
      var flipped := !muted;
      muted := flipped;
      audio.SetMuted(flipped);
    }

    /**
     * The wheel's effect on `shouldSpin`: when it is up, the wheel spins once with the current
     * items and the flag is lowered; otherwise nothing happens.
     */
    method ShouldSpinEffect(d: Draws)
      requires Valid() && AreDraws(d)
      modifies this`shouldSpin, wheel, audio`ctx
      ensures Valid() && !shouldSpin
      ensures !old(shouldSpin) || |items| < 2 ==>
        wheel.rotation == old(wheel.rotation) && wheel.currentRotation == old(wheel.currentRotation) &&
        wheel.live == old(wheel.live) && wheel.pending == old(wheel.pending) &&
        wheel.nextHandle == old(wheel.nextHandle) && audio.ctx == old(audio.ctx)
      ensures old(shouldSpin) && |items| >= 2 ==>
        var p := PlanSpin(old(wheel.currentRotation), |items|, d);
        wheel.currentRotation == wheel.rotation == p.target &&
        wheel.currentRotation >= old(wheel.currentRotation) + 1800.0 + 0.6 * SliceAngle(|items|) &&
        wheel.live == old(wheel.live) + {old(wheel.nextHandle)} && wheel.nextHandle == old(wheel.nextHandle) + 1 &&
        wheel.pending == old(wheel.pending) + [Timeout(old(wheel.nextHandle), items, p.index)] &&
        audio.ctx == if old(audio.ctx) == Some(AudioContext(Suspended)) then Some(AudioContext(Running)) else old(audio.ctx)
    {
      if shouldSpin {
        wheel.Spin(items, d);
        shouldSpin := false;
      }
    }

    /**
     * The wheel's oldest completion timeout firing at audio time `now`: the tick interval is
     * cleared first, then `onSpinComplete` runs with the winner captured when the spin began.
     */
    method SpinTimeout(now: real)
      requires Valid()
      modifies wheel`live, wheel`pending, this`result, this`gameState, audio`log
      ensures Valid()
      ensures old(wheel.pending) == [] ==>
        wheel.pending == old(wheel.pending) && wheel.live == old(wheel.live) &&
        gameState == old(gameState) && result == old(result) && audio.log == old(audio.log)
      ensures old(wheel.pending) != [] ==>
        var t := old(wheel.pending)[0];
        wheel.pending == old(wheel.pending)[1..] && wheel.live == old(wheel.live) - {t.interval} &&
        gameState == Celebrating && result == Some(SpinResult(t.items[t.index], None)) &&
        audio.log == old(audio.log) + if audio.Audible() then WinVoices(now) else []
    {
      var winner := wheel.Complete();
      if winner.Some? {
        OnSpinComplete(winner.value, now);
      }
    }
  }
}
