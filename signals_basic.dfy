/**
 * The signals tutorial component (frontend-angular/src/app/signals-basic/signals-basic.ts):
 * a counter, two name fields and a todo list held in signals, the values computed
 * from them, and the methods that update them. The logging effects are left out.
 */
module SignalsBasic {
  import opened Text
  import opened Sequences

  datatype Todo = Todo(text: string, completed: bool)

  /** The two todos the list starts with. */
  const InitialTodos: seq<Todo> := [Todo("Learn Angular Signals", false), Todo("Build awesome apps", false)]

  const Anonymous: string := "Anonymous"

  /** The values of the four writable signals. */
  datatype Signals = Signals(count: int, firstName: string, lastName: string, todos: seq<Todo>)

  const InitialSignals: Signals := Signals(0, "", "", InitialTodos)

  /** JavaScript's `%` on integers: the remainder truncated toward zero, so it takes the sign of the dividend. */
  function JsRemainder(a: int, b: int): (r: int)
    requires b > 0
    ensures a >= 0 ==> 0 <= r < b
    ensures a < 0 ==> -b < r <= 0
  {
    if a >= 0 then a % b else -((-a) % b)
  }

  /** Truncation is symmetric: negating the dividend negates the remainder, unlike Dafny's `%`. */
  lemma JsRemainderOdd(a: int, b: int)
    requires b > 0
    ensures JsRemainder(-a, b) == -JsRemainder(a, b)
    ensures a >= 0 ==> JsRemainder(a, b) == a % b
  {
  }

  /** `doubleCount`: always even, and half of it is the count. */
  function DoubleCount(count: int): (r: int)
    ensures IsEven(r) && r / 2 == count
  {
    count * 2
  }

  /** `squareCount`: never negative and never below the count. */
  function SquareCount(count: int): (r: int)
    ensures r >= 0 && r >= count
    ensures r == 0 <==> count == 0
  {
    SquareBounds(count);
    count * count
  }

  lemma SquareBounds(n: int)
    ensures n * n >= 0 && n * n >= n && (n * n == 0 <==> n == 0)
  {
    if n >= 1 {
      assert n * n == n * (n - 1) + n;
      assert n * (n - 1) >= 0;
    } else if n < 0 {
      assert n * n == (-n) * (-n);
      assert (-n) * (-n) > 0;
    }
  }

  /** `isEven`: the JavaScript test `count % 2 === 0` holds exactly for the even integers, negative ones included. */
  predicate IsEven(count: int)
    ensures IsEven(count) <==> count % 2 == 0
  {
    JsRemainder(count, 2) == 0
  }

  /** An odd negative count has JavaScript remainder -1, not 1. */
  lemma NegativeOddRemainder()
    ensures JsRemainder(-3, 2) == -1 && !IsEven(-3)
  {
  }

  /** `fullName`: the trimmed names joined. */
  function FullName(firstName: string, lastName: string): (r: string)
    ensures r != []
  {
    JoinNames(Trim(firstName), Trim(lastName))
  }

  /** Both names with a space between, else the one present, else "Anonymous". */
  function JoinNames(first: string, last: string): (r: string)
    ensures r != []
  {
    if first != [] && last != [] then first + " " + last
    else if first != [] then first
    else if last != [] then last
    else Anonymous
  }

  /** The full name has no whitespace at either end. */
  lemma FullNameHasNoOuterWhitespace(firstName: string, lastName: string)
    ensures HasNoOuterWhitespace(FullName(firstName, lastName))
  {
    JoinedNamesKeepEnds(Trim(firstName), Trim(lastName));
  }

  lemma JoinedNamesKeepEnds(first: string, last: string)
    requires HasNoOuterWhitespace(first) && HasNoOuterWhitespace(last)
    ensures HasNoOuterWhitespace(JoinNames(first, last))
  {
    var r := JoinNames(first, last);
    if first != [] && last != [] {
      assert r[0] == first[0];
      assert r[|r| - 1] == last[|last| - 1];
    } else if first == [] && last == [] {
      assert r[0] == 'A' && r[|r| - 1] == 's';
    }
  }

  /** Both names give "first last"; one name gives that name; neither gives "Anonymous". */
  lemma FullNameCases(firstName: string, lastName: string)
    ensures !IsJsBlank(firstName) && !IsJsBlank(lastName) ==> FullName(firstName, lastName) == Trim(firstName) + " " + Trim(lastName)
    ensures IsJsBlank(firstName) != IsJsBlank(lastName) ==> FullName(firstName, lastName) == Trim(firstName) + Trim(lastName)
    ensures IsJsBlank(firstName) && IsJsBlank(lastName) ==> FullName(firstName, lastName) == Anonymous
  {
    TrimEmptyIffBlank(firstName);
    TrimEmptyIffBlank(lastName);
    if IsJsBlank(firstName) {
      assert [] + Trim(lastName) == Trim(lastName);
    }
    if IsJsBlank(lastName) {
      assert Trim(firstName) + [] == Trim(firstName);
    }
  }

  /** Whitespace around the names never shows in the full name. */
  lemma FullNameIgnoresOuterWhitespace(firstName: string, lastName: string)
    ensures FullName(Trim(firstName), Trim(lastName)) == FullName(firstName, lastName)
  {
    TrimIdempotent(firstName);
    TrimIdempotent(lastName);
  }

  predicate IsCompleted(t: Todo) {
    t.completed
  }

  predicate IsRemaining(t: Todo) {
    !t.completed
  }

  /** `completedCount`. */
  function CompletedCount(todos: seq<Todo>): (r: nat)
    ensures r <= |todos|
  {
    |Filter(todos, IsCompleted)|
  }

  /** `remainingCount`. */
  function RemainingCount(todos: seq<Todo>): (r: nat)
    ensures r <= |todos|
  {
    |Filter(todos, IsRemaining)|
  }

  /** Completed and remaining todos make up the whole list (`todoCount`). */
  lemma CountsAddUp(todos: seq<Todo>)
    ensures CompletedCount(todos) + RemainingCount(todos) == |todos|
  {
    FilterPartition(todos, IsCompleted, IsRemaining);
  }

  /** `addTodo`: the trimmed text appended as an open todo, unless it is blank. */
  function AddedTodo(todos: seq<Todo>, text: string): (r: seq<Todo>)
    ensures !IsJsBlank(text) ==> r == todos + [Todo(Trim(text), false)] && r[|r| - 1].text != []
    ensures IsJsBlank(text) ==> r == todos
  {
    TrimEmptyIffBlank(text);
    if Trim(text) != [] then todos + [Todo(Trim(text), false)] else todos
  }

  /** `removeTodo`: the filter keeping every entry whose position differs from `index`. */
  function RemovedAt(todos: seq<Todo>, index: int): (r: seq<Todo>)
    ensures |r| <= |todos|
  {
    if todos == [] then []
    else
      var last := |todos| - 1;
      RemovedAt(todos[..last], index) + (if last == index then [] else [todos[last]])
  }

  /** Removing drops exactly the entry at `index`, keeps the others in order, and ignores an index outside the list. */
  lemma {:induction false} RemovedAtSplices(todos: seq<Todo>, index: int)
    ensures 0 <= index < |todos| ==> RemovedAt(todos, index) == todos[..index] + todos[index + 1..]
    ensures !(0 <= index < |todos|) ==> RemovedAt(todos, index) == todos
  {
    if todos != [] {
      var last := |todos| - 1;
      var init := todos[..last];
      RemovedAtSplices(init, index);
      if 0 <= index < last {
        assert init[..index] == todos[..index];
        assert init[index + 1..] + [todos[last]] == todos[index + 1..];
      } else if index == last {
        assert todos[index + 1..] == [];
        assert init + [] == todos[..index] + todos[index + 1..];
      } else {
        assert init + [todos[last]] == todos;
      }
    }
  }

  /** `toggleTodo`: the entry at `index` with its flag flipped, the others as they were. */
  function ToggledAt(todos: seq<Todo>, index: int): (r: seq<Todo>)
    ensures |r| == |todos|
  {
    seq(|todos|, i requires 0 <= i < |todos| => if i == index then todos[i].(completed := !todos[i].completed) else todos[i])
  }

  /** Toggling keeps every text and flips exactly one flag; an index outside the list changes nothing. */
  lemma ToggleFlipsOnlyThatEntry(todos: seq<Todo>, index: int)
    ensures forall i | 0 <= i < |todos| :: ToggledAt(todos, index)[i].text == todos[i].text
    ensures forall i | 0 <= i < |todos| :: ToggledAt(todos, index)[i].completed == (todos[i].completed != (i == index))
    ensures !(0 <= index < |todos|) ==> ToggledAt(todos, index) == todos
  {
  }

  /** Toggling the same entry twice restores the list. */
  lemma ToggleTwice(todos: seq<Todo>, index: int)
    ensures ToggledAt(ToggledAt(todos, index), index) == todos
  {
  }

  /** Toggling an entry moves it between the completed and the remaining count. */
  lemma ToggleMovesOneTodo(todos: seq<Todo>, index: int)
    requires 0 <= index < |todos|
    ensures todos[index].completed ==> CompletedCount(ToggledAt(todos, index)) == CompletedCount(todos) - 1
    ensures !todos[index].completed ==> CompletedCount(ToggledAt(todos, index)) == CompletedCount(todos) + 1
  {
    var toggled := ToggledAt(todos, index);
    var before := todos[..index];
    var after := todos[index + 1..];
    assert todos == before + [todos[index]] + after;
    assert toggled == before + [toggled[index]] + after;
    FilterDistributes(before + [todos[index]], after, IsCompleted);
    FilterDistributes(before, [todos[index]], IsCompleted);
    FilterDistributes(before + [toggled[index]], after, IsCompleted);
    FilterDistributes(before, [toggled[index]], IsCompleted);
  }

  function AfterIncrement(s: Signals): Signals {
    s.(count := s.count + 1)
  }

  function AfterDecrement(s: Signals): Signals {
    s.(count := s.count - 1)
  }

  function AfterReset(s: Signals): Signals {
    s.(count := 0)
  }

  function AfterUpdateFirstName(s: Signals, value: string): Signals {
    s.(firstName := value)
  }

  /** `updateLastName` as written: it reads the input element and stores nothing. */
  function AfterUpdateLastNameAsWritten(s: Signals, value: string): Signals {
    s
  }

  /** `updateLastName` as evidently intended, the twin of `updateFirstName`: the input's value becomes the last name. */
  function AfterUpdateLastName(s: Signals, value: string): Signals {
    s.(lastName := value)
  }

  function AfterAddTodo(s: Signals, text: string): Signals {
    s.(todos := AddedTodo(s.todos, text))
  }

  function AfterRemoveTodo(s: Signals, index: int): Signals {
    s.(todos := RemovedAt(s.todos, index))
  }

  function AfterToggleTodo(s: Signals, index: int): Signals {
    s.(todos := ToggledAt(s.todos, index))
  }

  /** Increment then decrement restores the count, and reset gives zero whatever came before. */
  lemma CounterOperations(s: Signals)
    ensures AfterDecrement(AfterIncrement(s)) == s && AfterIncrement(AfterDecrement(s)) == s
    ensures AfterReset(s).count == 0 && AfterReset(AfterIncrement(s)) == AfterReset(s)
  {
  }

  /**
   * As written, typing a last name never reaches the full name: from the start,
   * entering "Ada" and then "Lovelace" shows "Ada" alone.
   */
  lemma LastNameNeverChangesAsWritten()
    ensures var s := AfterUpdateLastNameAsWritten(AfterUpdateFirstName(InitialSignals, "Ada"), "Lovelace");
      s.lastName == "" && FullName(s.firstName, s.lastName) == "Ada"
  {
    var s := AfterUpdateLastNameAsWritten(AfterUpdateFirstName(InitialSignals, "Ada"), "Lovelace");
    assert s.firstName == "Ada" && s.lastName == "";
    var ada := "Ada";
    assert ada[0] == 'A' && ada[|ada| - 1] == 'a';
    assert !IsJsWhitespace('A') && !IsJsWhitespace('a');
    assert HasNoOuterWhitespace(ada) && !IsJsBlank(ada);
    FullNameCases(ada, "");
    TrimKeepsTrimmed(ada);
    TrimEmptyIffBlank("");
    assert Trim("Ada") + Trim("") == "Ada";
  }

  /** With the setter in place, the full name is the two trimmed names once both are entered. */
  lemma NamesEnteredShowInFullName(s: Signals, first: string, last: string)
    requires !IsJsBlank(first) && !IsJsBlank(last)
    ensures var t := AfterUpdateLastName(AfterUpdateFirstName(s, first), last);
      t.lastName == last && FullName(t.firstName, t.lastName) == Trim(first) + " " + Trim(last)
  {
    FullNameCases(first, last);
  }

  /** The component's writable signals. */
  class SignalsBasicComponent {
    var count: int
    var firstName: string
    var lastName: string
    var todos: seq<Todo>

    function State(): Signals
      reads this
    {
      Signals(count, firstName, lastName, todos)
    }

    constructor()
      ensures State() == InitialSignals
    {
      count := 0;
      firstName := "";
      lastName := "";
      todos := InitialTodos;
    }

    method Increment()
      modifies this
      ensures State() == AfterIncrement(old(State()))
    {
      count := count + 1;
    }

    method Decrement()
      modifies this
      ensures State() == AfterDecrement(old(State()))
    {
      count := count - 1;
    }

    method Reset()
      modifies this
      ensures State() == AfterReset(old(State()))
    {
      count := 0;
    }

    /** `updateFirstName`: the input element's value is the parameter. */
    method UpdateFirstName(value: string)
      modifies this
      ensures State() == AfterUpdateFirstName(old(State()), value)
    {
      firstName := value;
    }

    /** `updateLastName`, with the input's value stored as the last name (see `AfterUpdateLastName`). */
    method UpdateLastName(value: string)
      modifies this
      ensures State() == AfterUpdateLastName(old(State()), value)
    {
      lastName := value;
    }

    method AddTodo(text: string)
      modifies this
      ensures State() == AfterAddTodo(old(State()), text)
    {
      var trimmed := Trim(text);
      if trimmed != [] {
        todos := todos + [Todo(trimmed, false)];
      }
    }

    method RemoveTodo(index: int)
      modifies this
      ensures State() == AfterRemoveTodo(old(State()), index)
    {
      todos := RemovedAt(todos, index);
    }

    method ToggleTodo(index: int)
      modifies this
      ensures State() == AfterToggleTodo(old(State()), index)
    {
      todos := ToggledAt(todos, index);
    }
  }
}
