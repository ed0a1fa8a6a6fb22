/**
 The three refreshable scenarios of the test suite, written against the
 Refreshable model. Each method returns what the display shows at the points the
 test looks at, and its postcondition is what the test asserts there.
 */
module RefreshableTests {
  import opened Refreshables
  import opened NumberRendering

  /** The body of `number_ui`: one label with the sorted numbers. It shows `[]`
      exactly when there are no numbers. */
  function NumbersLabel(site: (), numbers: seq<int>, run: nat): (r: string)
    ensures r == "[]" <==> numbers == []
  {
    RenderEmptyIff(numbers);
    Render(numbers)
  }

  /** `test_refreshable`: each refresh shows the current numbers, sorted; after the
      list is cleared the display is `[]` again. */
  method SyncRefresh() returns (shown: seq<string>)
    ensures shown == ["[]", "[1]", "[1, 2]", "[]"]
  {
    var ui := new Refreshable<(), seq<int>>(NumbersLabel);
    ui.Call((), []);
    RenderEmptyList();
    var first := ui.content[()];
    ui.Refresh((), [1]);
    RenderOne();
    var second := ui.content[()];
    ui.Refresh((), [1, 2]);
    RenderOneTwo();
    var third := ui.content[()];
    ui.Refresh((), []);
    shown := [first, second, third, ui.content[()]];
  }

  /** `test_async_refreshable`: once each asynchronous refresh has completed, the
      display shows the new text, and after the first two refreshes `[]` is gone.
      While a refresh is in flight the display keeps the previous text, which the
      test does not look at. */
  method AsyncRefresh() returns (initial: string, during: seq<string>, after: seq<string>)
    ensures initial == "[]"
    ensures after == ["[1]", "[1, 2]", "[]"]
    ensures after[0] != "[]" && after[1] != "[]"
    ensures during == [initial, after[0], after[1]]
  {
    var ui := new Refreshable<(), seq<int>>(NumbersLabel);
    ui.Call((), []);
    RenderEmptyList();
    initial := ui.content[()];
    ui.RefreshAsync((), [1]);
    var during1 := ui.content[()];
    ui.Attach(());
    RenderOne();
    var after1 := ui.content[()];
    ui.RefreshAsync((), [1, 2]);
    var during2 := ui.content[()];
    ui.Attach(());
    RenderOneTwo();
    var after2 := ui.content[()];
    ui.RefreshAsync((), []);
    var during3 := ui.content[()];
    ui.Attach(());
    during := [during1, during2, during3];
    after := [after1, after2, ui.content[()]];
  }

  /** An instance of the test's `MyClass`: a name and a counter state. */
  class Item {
    const name: string
    var state: int

    constructor (name: string)
      ensures this.name == name && state == 1
    {
      this.name := name;
      state := 1;
    }

    /** `increment`: count up, then refresh this instance's call site only. */
    method Increment(ui: Refreshable<Item, int>)
      requires ui.Valid()
      modifies this, ui
      ensures state == old(state) + 1
      ensures ui.Valid() && ui.buffer == old(ui.buffer) - {this}
      ensures this in old(ui.content) ==>
        ui.runs == old(ui.runs) + 1 && ui.content == old(ui.content)[this := ui.body(this, state, ui.runs)]
      ensures this !in old(ui.content) ==> ui.runs == old(ui.runs) && ui.content == old(ui.content)
    {
      state := state + 1;
      ui.Refresh(this, state);
    }
  }

  /** The body of `create_ui`: the instance's name, its state, and the run count.
      `LabelText` spells it out for single-digit state and count. */
  function ItemLabel(item: Item, state: int, count: nat): (r: string)
  {
    item.name + " = " + IntToString(state) + " (" + IntToString(count) + ")"
  }

  /** The labels the test expects, for the single-digit states and counts it reaches. */
  lemma LabelText(name: string, state: int, count: nat)
    requires 0 <= state < 10 && count < 10
    ensures name + " = " + IntToString(state) + " (" + IntToString(count) + ")"
         == name + [' ', '=', ' ', DigitChar(state), ' ', '(', DigitChar(count), ')']
  {
  }

  /** The four labels `test_multiple_targets` looks for. */
  lemma ExpectedLabels(a: Item, b: Item)
    requires a.name == "A" && b.name == "B"
    ensures ItemLabel(a, 1, 1) == "A = 1 (1)" && ItemLabel(b, 1, 2) == "B = 1 (2)"
    ensures ItemLabel(a, 2, 3) == "A = 2 (3)" && ItemLabel(b, 2, 4) == "B = 2 (4)"
  {
    LabelText("A", 1, 1);
    LabelText("B", 1, 2);
    LabelText("A", 2, 3);
    LabelText("B", 2, 4);
  }

  /** `test_multiple_targets`: each instance has its own call site; refreshing one
      re-runs the body there once and leaves the other's text as it was. The
      results are the two labels after both first calls, after incrementing A,
      and after incrementing B. */
  method MultipleTargets() returns (a1: string, b1: string, a2: string, b2: string, a3: string, b3: string)
    ensures a1 == "A = 1 (1)" && b1 == "B = 1 (2)"
    ensures a2 == "A = 2 (3)" && b2 == "B = 1 (2)"
    ensures a3 == "A = 2 (3)" && b3 == "B = 2 (4)"
  {
    var ui := new Refreshable<Item, int>(ItemLabel);
    var a := new Item("A");
    var b := new Item("B");
    ExpectedLabels(a, b);
    ui.Call(a, a.state);
    ui.Call(b, b.state);
    a1, b1 := ui.content[a], ui.content[b];
    assert a1 == ItemLabel(a, 1, 1) && b1 == ItemLabel(b, 1, 2);
    a.Increment(ui);
    a2, b2 := ui.content[a], ui.content[b];
    assert a2 == ItemLabel(a, 2, 3) && b2 == b1;
    b.Increment(ui);
    a3, b3 := ui.content[a], ui.content[b];
    assert a3 == a2 && b3 == ItemLabel(b, 2, 4);
  }
}
