/** Page tokens and the stack of page states they carry. */
module Pagination {
  import opened Base

  /** A page token. On the wire every token is a string; a token is told apart here by what it
      was built from: nothing, an Okta listing cursor, a position in a user's group list, or a
      marshalled stack. */
  datatype Token =
    | Empty
    | Cursor(page: nat)
    | Index(index: int)
    | Stack(states: seq<PageState>, current: PageState)

  datatype PageState = PageState(token: Token, resourceTypeID: string, resourceID: string)

  /** The stack a token stands for, top last; only a marshalled stack or the empty token parse. */
  function StackOf(token: Token): Result<seq<PageState>> {
    match token
    case Empty => Ok([])
    case Stack(states, current) => Ok(states + [current])
    case _ => Err
  }

  function TokenOf(stack: seq<PageState>): Token {
    if stack == [] then Empty else Stack(stack[..|stack| - 1], stack[|stack| - 1])
  }

  /** Marshalling loses nothing, and only the empty stack marshals to the empty token. */
  lemma TokenRoundTrip(stack: seq<PageState>)
    ensures StackOf(TokenOf(stack)) == Ok(stack)
    ensures TokenOf(stack) == Empty <==> stack == []
  {
    if stack != [] {
      assert stack == stack[..|stack| - 1] + [stack[|stack| - 1]];
    }
  }

  class Bag {
    var states: seq<PageState>
    var currentState: Option<PageState>

    ghost predicate Valid()
      reads this
    {
      currentState.None? ==> states == []
    }

    /** The whole stack, top last. */
    function Contents(): seq<PageState>
      reads this
    {
      if currentState.Some? then states + [currentState.value] else []
    }

    constructor ()
      ensures Valid() && Contents() == []
    {
      states, currentState := [], None;
    }

    method Push(state: PageState)
      requires Valid()
      modifies this
      ensures Valid() && Contents() == old(Contents()) + [state]
    {
      if currentState.None? {
        currentState := Some(state);
        return;
      }
      states := states + [currentState.value];
      currentState := Some(state);
    }

    method Pop() returns (top: Option<PageState>)
      requires Valid()
      modifies this
      ensures Valid()
      ensures old(Contents()) == [] ==> top == None && Contents() == []
      ensures old(Contents()) != [] ==> top.Some? && old(Contents()) == Contents() + [top.value]
    {
      top := currentState;
      if currentState.None? {
        return;
      }
      if |states| > 0 {
        currentState := Some(states[|states| - 1]);
        states := states[..|states| - 1];
      } else {
        currentState := None;
      }
    }

    /** Replaces the token of the top state, or drops that state when it has no more pages. */
    method Next(pageToken: Token) returns (r: Result<()>)
      requires Valid()
      modifies this
      ensures Valid()
      ensures r.Ok? <==> old(Contents()) != []
      ensures r.Ok? ==>
                var before := old(Contents());
                var below, top := before[..|before| - 1], before[|before| - 1];
                Contents() == if pageToken == Empty then below else below + [top.(token := pageToken)]
    {
      var st := Pop();
      if st.None? {
        return Err;
      }
      if pageToken != Empty {
        Push(st.value.(token := pageToken));
      }
      return Ok(());
    }

    function Current(): Option<PageState>
      reads this
      requires Valid()
      ensures Current() == if Contents() == [] then None else Some(Contents()[|Contents()| - 1])
    {
      currentState
    }

    function PageToken(): Token
      reads this
    {
      if currentState.None? then Empty else currentState.value.token
    }

    function ResourceTypeID(): string
      reads this
    {
      if currentState.None? then "" else currentState.value.resourceTypeID
    }

    method Unmarshal(token: Token) returns (r: Result<()>)
      modifies this
      ensures r.Ok? <==> StackOf(token).Ok?
      ensures r.Ok? ==> Valid() && Contents() == StackOf(token).value
      ensures r.Err? ==> unchanged(this)
    {
      match token
      case Empty =>
        states, currentState := [], None;
        return Ok(());
      case Stack(below, top) =>
        states, currentState := below, Some(top);
        return Ok(());
      case _ =>
        return Err;
    }

    function Marshal(): Token
      reads this
      requires Valid()
      ensures Marshal() == TokenOf(Contents())
    {
      if currentState.None? then Empty else
      assert Contents() == states + [currentState.value];
      assert Contents()[..|states|] == states;
      Stack(states, currentState.value)
    }
  }

  /** Opens the page stack of a flat listing, starting it with one state when the token is empty. */
  method ParsePageToken(token: Token, resourceTypeID: string, resourceID: string)
    returns (r: Result<Bag>, page: Token)
    ensures r.Ok? <==> StackOf(token).Ok?
    ensures r.Ok? ==> fresh(r.value) && r.value.Valid()
    ensures r.Ok? ==> r.value.Contents() ==
                      if StackOf(token).value == [] then [PageState(Empty, resourceTypeID, resourceID)]
                      else StackOf(token).value
    ensures r.Ok? ==> page == r.value.Contents()[|r.value.Contents()| - 1].token
  {
    var bag := new Bag();
    var parsed := bag.Unmarshal(token);
    if parsed.Err? {
      return Err, Empty;
    }
    if bag.Current().None? {
      bag.Push(PageState(Empty, resourceTypeID, resourceID));
    }
    return Ok(bag), bag.PageToken();
  }

  /** The page a listing cursor asks for: an empty cursor is the first page. */
  function PageNumber(after: Token): Option<nat> {
    match after
    case Empty => Some(0)
    case Cursor(k) => if k > 0 then Some(k) else None
    case _ => None
  }

  /** The cursor Okta hands back with page `k` of `pages`; empty after the last page. */
  function CursorAfter(k: nat, pages: nat): Token {
    if k + 1 < pages then Cursor(k + 1) else Empty
  }
}
