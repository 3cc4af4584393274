/** What the two admin list pages compute without changing anything: which of
    spinner, error block and table they render, the first list item with a
    given id (`Array.prototype.find`), the name shown in the delete dialog,
    and row numbering. */
module ListView {
  import opened Api

  /** One rendering of a list page. The early returns for the spinner and the
      error block render neither the form modal nor the delete dialog. */
  datatype Screen<R, M> =
    | Spinner
    | ErrorBlock(message: string)
    | Table(rows: seq<R>, modal: Option<M>, deleteDialog: Option<string>)

  /** `if (loading) … ; if (error) … ; return table`. */
  function Layout<R, M>(loading: bool, error: Option<string>, rows: seq<R>,
                        modal: Option<M>, deleteDialog: Option<string>): (s: Screen<R, M>)
    ensures s.Spinner? <==> loading
    ensures s.ErrorBlock? <==> !loading && Truthy(error)
    ensures s.ErrorBlock? ==> Some(s.message) == error
    ensures s.Table? <==> !loading && !Truthy(error)
    ensures s.Table? ==> s.rows == rows && s.modal == modal && s.deleteDialog == deleteDialog
  {
    if loading then Spinner
    else if Truthy(error) then ErrorBlock(error.value)
    else Table(rows, modal, deleteDialog)
  }

  /** The index of the first item whose key is `id` (`find` with `===`; an
      absent `id` is `null`, which no numeric key equals). */
  function FindFirst<T>(items: seq<T>, key: T -> int, id: Option<int>): (r: Option<nat>)
    ensures r.Some? ==> r.value < |items| && Some(key(items[r.value])) == id
    ensures r.Some? ==> forall j :: 0 <= j < r.value ==> Some(key(items[j])) != id
    ensures r.None? <==> forall j :: 0 <= j < |items| ==> Some(key(items[j])) != id
  {
    if |items| == 0 then None
    else if Some(key(items[0])) == id then Some(0)
    else match FindFirst(items[1..], key, id)
      case None => None
      case Some(k) => Some(k + 1)
  }

  /** `items.find((x) => x.id === id)?.name || fallback`: the name shown in
      the delete dialog. */
  function ItemName<T>(items: seq<T>, key: T -> int, name: T -> string,
                       id: Option<int>, fallback: string): (r: string)
    ensures fallback != "" ==> r != ""
    ensures id.None? ==> r == fallback
    ensures forall k :: (0 <= k < |items| && Some(key(items[k])) == id && name(items[k]) != "" &&
        (forall j :: 0 <= j < k ==> Some(key(items[j])) != id)) ==> r == name(items[k])
    ensures forall k :: (0 <= k < |items| && Some(key(items[k])) == id && name(items[k]) == "" &&
        (forall j :: 0 <= j < k ==> Some(key(items[j])) != id)) ==> r == fallback
    ensures (forall k :: 0 <= k < |items| ==> Some(key(items[k])) != id) ==> r == fallback
  {
    match FindFirst(items, key, id)
    case None => fallback
    case Some(k) => if name(items[k]) != "" then name(items[k]) else fallback
  }

  /** One table row with its displayed number. */
  datatype Row<T> = Row(number: nat, item: T)

  /** `items.map((item, index) => … index + 1 …)`. */
  function Numbered<T>(items: seq<T>): (r: seq<Row<T>>)
    ensures |r| == |items|
    ensures forall i :: 0 <= i < |r| ==> r[i].item == items[i] && r[i].number == i + 1
    ensures |r| > 0 ==> r[0].number == 1 && r[|r| - 1].number == |items|
  {
    seq(|items|, i requires 0 <= i < |items| => Row(i + 1, items[i]))
  }
}
