/** Which of the three main panels the page renders. */
module Views {
  import opened Videos

  datatype View = Grid | Library | Detail

  /** The render conditional: the artist grid when there are no videos and the
      library is not being viewed, else the library when it is, else the
      detail page. */
  function SelectView(videos: seq<Video>, viewingLibrary: bool): (v: View)
    ensures v == Grid <==> |videos| == 0 && !viewingLibrary
    ensures v == Library <==> viewingLibrary
    ensures v == Detail <==> |videos| > 0 && !viewingLibrary
  {
    if |videos| == 0 && !viewingLibrary then Grid
    else if viewingLibrary then Library
    else Detail
  }
}
