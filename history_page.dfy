/**
 * The history page: the signed-in user's generations, newest first, the two
 * local list edits (delete, toggle favourite) that follow a successful
 * database call, and the preview each card shows of a generation's copy.
 */
module History {
  import opened JsRuntime
  import opened AiTypes
  import opened Ui

  /**
   * A `generations` row as the page reads it; `createdAt` is the row's
   * creation instant, which is what the query orders by.
   */
  datatype Generation = Generation(
    id: string,
    userId: string,
    createdAt: nat,
    imageUrl: string,
    isFavorite: Option<bool>,
    outputCopy: Json)

  const LOAD_FAILED := "Failed to load history"
  const DELETED := "Generation deleted"
  const DELETE_FAILED := "Failed to delete"
  const FAVORITED := "Added to favorites"
  const UNFAVORITED := "Removed from favorites"
  const FAVORITE_FAILED := "Failed to update favorite"

  /** `gen.is_favorite || false` */
  predicate IsFavorite(g: Generation) {
    g.isFavorite == Some(true)
  }

  predicate NewestFirst(gs: seq<Generation>) {
    forall i, j | 0 <= i < j < |gs| :: gs[i].createdAt >= gs[j].createdAt
  }

  /** `gs.filter(p)`: the elements that satisfy `p`, each as often as in `gs`, in their order. */
  function Keep(gs: seq<Generation>, p: Generation -> bool): (r: seq<Generation>)
    ensures forall g :: multiset(r)[g] == if p(g) then multiset(gs)[g] else 0
  {
    if gs == [] then []
    else
      assert gs == [gs[0]] + gs[1..];
      if p(gs[0]) then [gs[0]] + Keep(gs[1..], p) else Keep(gs[1..], p)
  }

  /** Every element of `gs` is no newer than `t`. */
  predicate NoNewerThan(t: nat, gs: seq<Generation>) {
    forall x | x in gs :: x.createdAt <= t
  }

  lemma HeadIsNewest(gs: seq<Generation>)
    requires gs != [] && NewestFirst(gs)
    ensures NewestFirst(gs[1..]) && NoNewerThan(gs[0].createdAt, gs[1..])
  {
    forall x | x in gs[1..] ensures x.createdAt <= gs[0].createdAt {
      var k :| 0 <= k < |gs[1..]| && gs[1..][k] == x;
      assert gs[k + 1] == x;
    }
  }

  lemma ConsNewestFirst(g: Generation, gs: seq<Generation>)
    requires NewestFirst(gs) && NoNewerThan(g.createdAt, gs)
    ensures NewestFirst([g] + gs)
  {
    var r := [g] + gs;
    forall i, j | 0 <= i < j < |r| ensures r[i].createdAt >= r[j].createdAt {
      assert r[j] == gs[j - 1];
      if i > 0 {
        assert r[i] == gs[i - 1];
      } else {
        assert gs[j - 1] in gs;
      }
    }
  }

  /** Filtering keeps a list newest first. */
  lemma {:induction false} KeepNewestFirst(gs: seq<Generation>, p: Generation -> bool)
    requires NewestFirst(gs)
    ensures NewestFirst(Keep(gs, p))
  {
    if gs != [] {
      HeadIsNewest(gs);
      KeepNewestFirst(gs[1..], p);
      var rest := Keep(gs[1..], p);
      if p(gs[0]) {
        forall x | x in rest ensures x.createdAt <= gs[0].createdAt {
          assert multiset(rest)[x] > 0;
          assert x in multiset(gs[1..]);
        }
        ConsNewestFirst(gs[0], rest);
      }
    }
  }

  /** `g` put in front of the first element no newer than it. */
  function Insert(g: Generation, gs: seq<Generation>): (r: seq<Generation>)
    requires NewestFirst(gs)
    ensures NewestFirst(r)
    ensures multiset(r) == multiset(gs) + multiset{g}
  {
    if gs == [] then [g]
    else if g.createdAt >= gs[0].createdAt then
      HeadIsNewest(gs);
      assert NoNewerThan(g.createdAt, gs);
      ConsNewestFirst(g, gs);
      [g] + gs
    else
      HeadIsNewest(gs);
      var rest := Insert(g, gs[1..]);
      assert gs == [gs[0]] + gs[1..];
      assert NoNewerThan(gs[0].createdAt, rest) by {
        forall x | x in rest ensures x.createdAt <= gs[0].createdAt {
          assert x in multiset(rest);
        }
      }
      ConsNewestFirst(gs[0], rest);
      [gs[0]] + rest
  }

  /** `.order('created_at', { ascending: false })` */
  function SortNewestFirst(gs: seq<Generation>): (r: seq<Generation>)
    ensures NewestFirst(r)
    ensures multiset(r) == multiset(gs)
  {
    if gs == [] then []
    else
      assert gs == [gs[0]] + gs[1..];
      Insert(gs[0], SortNewestFirst(gs[1..]))
  }

  /**
   * `.from('generations').select('*').eq('user_id', user).order('created_at',
   * { ascending: false })`: every row of the user, and no other row, newest
   * first.
   */
  function Query(table: seq<Generation>, user: string): (r: seq<Generation>)
    ensures NewestFirst(r)
    ensures forall g :: multiset(r)[g] == if g.userId == user then multiset(table)[g] else 0
  {
    SortNewestFirst(Keep(table, (g: Generation) => g.userId == user))
  }

  /** The list after deleting `id`: `prev.filter(g => g.id !== id)`. */
  function Without(gs: seq<Generation>, id: string): seq<Generation> {
    Keep(gs, (g: Generation) => g.id != id)
  }

  /**
   * A delete removes every entry with that id and nothing else, and a list
   * that was newest first stays so.
   */
  lemma DeleteRemovesExactly(gs: seq<Generation>, id: string)
    ensures forall g :: g in Without(gs, id) <==> g in gs && g.id != id
    ensures forall g: Generation | g.id != id :: multiset(Without(gs, id))[g] == multiset(gs)[g]
    ensures NewestFirst(gs) ==> NewestFirst(Without(gs, id))
  {
    var r := Without(gs, id);
    forall g ensures g in r <==> g in gs && g.id != id {
      assert g in r <==> multiset(r)[g] > 0;
      assert g in gs <==> multiset(gs)[g] > 0;
    }
    if NewestFirst(gs) {
      KeepNewestFirst(gs, (g: Generation) => g.id != id);
    }
  }

  /** The list after a favourite update: `prev.map(g => g.id === id ? { ...g, is_favorite: value } : g)`. */
  function WithFavorite(gs: seq<Generation>, id: string, value: bool): (r: seq<Generation>)
    ensures |r| == |gs|
    ensures forall i | 0 <= i < |gs| :: r[i].id == gs[i].id && r[i].userId == gs[i].userId &&
              r[i].createdAt == gs[i].createdAt && r[i].imageUrl == gs[i].imageUrl && r[i].outputCopy == gs[i].outputCopy
    ensures forall i | 0 <= i < |gs| :: r[i].isFavorite == if gs[i].id == id then Some(value) else gs[i].isFavorite
  {
    seq(|gs|, i requires 0 <= i < |gs| => if gs[i].id == id then gs[i].(isFavorite := Some(value)) else gs[i])
  }

  /**
   * Toggling with the card's own status (`gen.is_favorite || false`) flips
   * that card's flag, a missing flag counting as not favourite; the other
   * cards and the order are untouched, and toggling back restores the flag.
   */
  lemma ToggleFlips(gs: seq<Generation>, i: nat)
    requires i < |gs|
    ensures var r := WithFavorite(gs, gs[i].id, !IsFavorite(gs[i]));
            IsFavorite(r[i]) == !IsFavorite(gs[i]) &&
            (forall j | 0 <= j < |gs| && gs[j].id != gs[i].id :: r[j] == gs[j]) &&
            (NewestFirst(gs) ==> NewestFirst(r))
    ensures var r := WithFavorite(gs, gs[i].id, !IsFavorite(gs[i]));
            IsFavorite(WithFavorite(r, gs[i].id, !IsFavorite(r[i]))[i]) == IsFavorite(gs[i])
  {
  }

  // ---------------------------------------------------------------
  // The card preview
  // ---------------------------------------------------------------

  /** What a card shows of a generation's copy: headlines, and the count in "+ n more options" when shown. */
  datatype Card = Card(headlines: seq<Value>, more: Option<nat>)

  /** `copy.headline` for each copy; reading a property of a `null` entry throws. */
  function Headlines(items: seq<Json>): (r: Result<seq<Value>>)
    ensures r.Ok? <==> forall i | 0 <= i < |items| :: items[i] != JNull
    ensures r.Ok? ==> |r.value| == |items| &&
                      forall i | 0 <= i < |items| :: Member(items[i], "headline") == Ok(r.value[i])
  {
    if items == [] then Ok([])
    else
      match Member(items[0], "headline")
      case Err(m) => Err(m)
      case Ok(h) =>
        match Headlines(items[1..])
        case Err(m) => Err(m)
        case Ok(rest) =>
          assert forall i | 1 <= i < |items| :: items[i] == items[1..][i - 1];
          Ok([h] + rest)
  }

  /** The preview of an array of copies: the first two headlines, and how many more there are. */
  function CopyCard(items: seq<Json>): Result<Card> {
    var shown := items[..if |items| < 2 then |items| else 2];
    var hs :- Headlines(shown);
    Ok(Card(hs, if |items| > 2 then Some(|items| - 2) else None))
  }

  /**
   * `gen.output_copy.slice(0, 2).map(...)` and `gen.output_copy.length > 2`,
   * as written: only an array has both `slice` and `map`, so any other stored
   * output makes the card, and with it the page, fail to render.
   */
  function CardAsWritten(output: Json): Result<Card> {
    match output
    case JArr(items) => CopyCard(items)
    case JNull => Err(ReadError("null", "slice"))
    case JStr(_) => Err(NotAFunction("gen.output_copy.slice(...).map"))
    case _ => Err(NotAFunction("gen.output_copy.slice"))
  }

  /**
   * The generate route stores a weekly batch as an object, and such a
   * generation cannot be previewed by the page as written.
   */
  lemma WeeklyOutputBreaksCard(o: GhostwriterOutput)
    ensures CardAsWritten(OutputToJson(o)).Err?
  {
  }

  /** The card preview with the array check the page's type assumes: a non-array output shows no headlines. */
  function CardPreview(output: Json): Result<Card> {
    if output.JArr? then CopyCard(output.items) else Ok(Card([], None))
  }

  /**
   * The card shows the first two headlines (fewer when there are fewer
   * copies) and "+ (n-2) more" exactly when there are more than two copies,
   * so every copy is either shown or counted; a weekly batch previews as an
   * empty card.
   */
  lemma CardCountsEveryCopy(items: seq<Json>, o: GhostwriterOutput)
    requires forall i | 0 <= i < |items| :: items[i] != JNull
    ensures var c := CardPreview(JArr(items));
            c.Ok? && |c.value.headlines| == (if |items| < 2 then |items| else 2) &&
            (forall i | 0 <= i < |c.value.headlines| :: Member(items[i], "headline") == Ok(c.value.headlines[i])) &&
            (c.value.more.Some? <==> |items| > 2) &&
            |c.value.headlines| + (if c.value.more.Some? then c.value.more.value else 0) == |items|
    ensures CardPreview(OutputToJson(o)) == Ok(Card([], None))
  {
    var shown := items[..if |items| < 2 then |items| else 2];
    assert forall i | 0 <= i < |shown| :: shown[i] == items[i];
  }

  class HistoryPage {
    var generations: seq<Generation>
    var loading: bool

    constructor()
      ensures generations == [] && loading
    {
      generations := [];
      loading := true;
    }

    /**
     * The loading effect, given the session's user and the `generations`
     * table (or the query's error): the list becomes the user's rows newest
     * first, and `loading` ends false however it ends.
     */
    method Load(session: Option<string>, table: Result<seq<Generation>>) returns (toast: Option<Toast>)
      modifies this
      ensures session.Some? && table.Ok? ==> generations == Query(table.value, session.value) && toast.None?
      ensures session.Some? && table.Err? ==> generations == old(generations) && toast == Some(ToastError(LOAD_FAILED, None))
      ensures session.None? ==> generations == old(generations) && toast.None?
      ensures !loading
    {
      toast := None;
      if session.Some? {
        if table.Ok? {
          generations := Query(table.value, session.value);
        } else {
          toast := Some(ToastError(LOAD_FAILED, None));
        }
      }
      loading := false;
    }

    /** `handleDelete(id)`, given whether the database delete failed. */
    method Delete(id: string, dbFailed: bool) returns (toast: Toast)
      modifies this
      ensures generations == if dbFailed then old(generations) else Without(old(generations), id)
      ensures toast == if dbFailed then ToastError(DELETE_FAILED, None) else ToastSuccess(DELETED)
      ensures NewestFirst(old(generations)) ==> NewestFirst(generations)
      ensures loading == old(loading)
    {
      if dbFailed {
        toast := ToastError(DELETE_FAILED, None);
      } else {
        DeleteRemovesExactly(generations, id);
        generations := Without(generations, id);
        toast := ToastSuccess(DELETED);
      }
    }

    /** `handleToggleFavorite(id, currentStatus)`, given whether the database update failed. */
    method ToggleFavorite(id: string, currentStatus: bool, dbFailed: bool) returns (toast: Toast)
      modifies this
      ensures generations == if dbFailed then old(generations) else WithFavorite(old(generations), id, !currentStatus)
      ensures dbFailed ==> toast == ToastError(FAVORITE_FAILED, None)
      ensures !dbFailed ==> toast == ToastSuccess(if currentStatus then UNFAVORITED else FAVORITED)
      ensures NewestFirst(old(generations)) ==> NewestFirst(generations)
      ensures loading == old(loading)
    {
      if dbFailed {
        toast := ToastError(FAVORITE_FAILED, None);
      } else {
        generations := WithFavorite(generations, id, !currentStatus);
        toast := ToastSuccess(if currentStatus then UNFAVORITED else FAVORITED);
      }
    }
  }
}
