/** The state held by the lung-app `App` component: the four hook variables
    and the records that make up the session history. */
module AppState {

  datatype Option<+T> = None | Some(value: T)

  /** A file the user picked or dropped. The browser's File object is opaque to
      the component except for its display name; `id` tells two files apart. */
  datatype Image = Image(id: nat, name: string)

  /** A classification label as returned by the backend; "" stands for "no result". */
  type Label = string

  /** The one label the view singles out. */
  const NormalLabel: Label := "NORMAL"

  /** One entry of the history panel: the submitted image and its label. */
  datatype Record = Record(image: Image, classification: Label)

  /** The component state. `selectedImage` is `None` for JavaScript `null`. */
  datatype State = State(
    selectedImage: Option<Image>,
    classification: Label,
    isLoading: bool,
    history: seq<Record>)

  /** The state of a freshly mounted component. */
  const Initial: State := State(None, "", false, [])

  /** `pre` is an initial segment of `s`: entries kept in place and in order. */
  predicate IsPrefix<T(==)>(pre: seq<T>, s: seq<T>) {
    |pre| <= |s| && s[..|pre|] == pre
  }
}
