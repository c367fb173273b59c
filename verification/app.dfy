/** The page component: its state variables become the fields of one object
    and each event handler a method that overwrites some of them. A handler
    that fetches takes the response as a parameter (`None` when its `catch`
    branch ran) and returns the request it sends. */
module App {
  import opened Wrappers
  import opened Catalog
  import opened Videos
  import opened Views
  import Favorites
  import Genres
  import Lists

  /** A snapshot of every state variable of the component. */
  datatype UiState = UiState(
    menuOpen: bool,
    artists: seq<Artist>,
    youtubeVideos: Option<seq<Video>>,
    selectedArtist: Option<Artist>,
    searchTerm: string,
    genres: seq<string>,
    genreSearchTerm: string,
    favorites: seq<Artist>,
    viewingLibrary: bool)

  class SpotifyApp {
    var menuOpen: bool
    var artists: seq<Artist>
    /** `None` is the `null` the video search's `catch` branch stores. */
    var youtubeVideos: Option<seq<Video>>
    var selectedArtist: Option<Artist>
    var searchTerm: string
    var genres: seq<string>
    var genreSearchTerm: string
    var favorites: seq<Artist>
    var viewingLibrary: bool

    function State(): UiState
      reads this
    {
      UiState(menuOpen, artists, youtubeVideos, selectedArtist, searchTerm,
              genres, genreSearchTerm, favorites, viewingLibrary)
    }

    /** The component's invariant: no two favourites share an id, and
        whenever there are videos to show an artist is selected, so the
        detail page always has an artist to display. */
    ghost predicate Valid()
      reads this
      ensures Valid() && youtubeVideos.Some? && SelectView(youtubeVideos.value, viewingLibrary) == Detail
        ==> selectedArtist.Some?
    {
      && Favorites.UniqueIds(favorites)
      && (youtubeVideos.Some? && |youtubeVideos.value| > 0 ==> selectedArtist.Some?)
    }

    /** The initial values of the state variables, before the mount effect. */
    constructor ()
      ensures Valid()
      ensures State() == UiState(false, [], Some([]), None, "", [], "", [], false)
    {
      menuOpen, artists, youtubeVideos, selectedArtist := false, [], Some([]), None;
      searchTerm, genres, genreSearchTerm := "", [], "";
      favorites, viewingLibrary := [], false;
    }

    /** The panel that is rendered. Undefined once a failed video search has
        stored `null`: the render conditional then reads `null.length`. */
    function CurrentView(): (v: View)
      reads this
      requires youtubeVideos.Some?
      ensures v == Grid <==> youtubeVideos.value == [] && !viewingLibrary
      ensures v == Library <==> viewingLibrary
      ensures Valid() && v == Detail ==> selectedArtist.Some?
    {
      SelectView(youtubeVideos.value, viewingLibrary)
    }

    /** `isFavorite` on the current favourites. */
    function IsFavorite(artist: Artist): (b: bool)
      reads this
      ensures b <==> exists i :: 0 <= i < |favorites| && favorites[i].id == artist.id
    {
      Favorites.IsFavorite(favorites, artist)
    }

    /** `filteredGenres` on the current genres and genre search term. */
    function FilteredGenres(): (r: seq<string>)
      reads this
      ensures Lists.IsSublist(r, genres)
      ensures forall g :: g in r <==> g in genres && Genres.Matches(g, genreSearchTerm)
      ensures forall g :: multiset(r)[g] == if Genres.Matches(g, genreSearchTerm) then multiset(genres)[g] else 0
    {
      Genres.FilterGenres(genres, genreSearchTerm)
    }

    /** `fetchArtists`: request the default genre grid and show what comes
        back; when the `catch` branch runs the grid is left as it was. */
    method FetchArtists(response: Option<seq<Artist>>) returns (q: ArtistQuery)
      requires Valid()
      modifies this
      ensures Valid()
      ensures q == ByGenre(DefaultGenre)
      ensures State() == old(State()).(artists := if response.Some? then response.value else old(artists))
    {
      q := ByGenre(DefaultGenre);
      if response.Some? {
        artists := response.value;
      }
    }

    /** The mount effect: load the default grid and fill the genre panel. */
    method Mount(response: Option<seq<Artist>>) returns (q: ArtistQuery)
      requires Valid()
      modifies this
      ensures Valid()
      ensures q == ByGenre(DefaultGenre)
      ensures State() == old(State()).(
        artists := if response.Some? then response.value else old(artists),
        genres := Genres.AllGenres)
    {
      q := FetchArtists(response);
      genres := Genres.AllGenres;
    }

    /** `fetchArtistsByGenre`: a genre button of the side panel. */
    method FetchArtistsByGenre(genre: string, response: Option<seq<Artist>>) returns (q: ArtistQuery)
      requires Valid()
      modifies this
      ensures Valid()
      ensures q == ByGenre(genre)
      ensures State() == old(State()).(artists := if response.Some? then response.value else old(artists))
    {
      q := ByGenre(genre);
      if response.Some? {
        artists := response.value;
      }
    }

    /** `fetchYoutubeVideo`: search videos by the artist's name; on success
        store one video per returned item, in order, and select the artist
        (the detail page shows them only outside the library);
        when the `catch` branch runs store `null` and keep the selection. */
    method FetchYoutubeVideo(artist: Artist, response: Option<seq<SearchItem>>) returns (search: VideoSearch)
      requires Valid()
      modifies this
      ensures Valid()
      ensures search == VideoSearch(artist.name, MaxResults)
      ensures response.Some? ==> State() == old(State()).(
        youtubeVideos := Some(ToVideos(response.value)),
        selectedArtist := Some(artist))
      ensures response.Some? ==> |youtubeVideos.value| == |response.value|
      ensures response.Some? && !viewingLibrary ==>
        CurrentView() == if |response.value| == 0 then Grid else Detail
      ensures response.Some? && viewingLibrary ==> CurrentView() == Library
      ensures response.None? ==> State() == old(State()).(youtubeVideos := None)
    {
      search := VideoSearch(artist.name, MaxResults);
      if response.Some? {
        youtubeVideos := Some(ToVideos(response.value));
        selectedArtist := Some(artist);
      } else {
        youtubeVideos := None;
      }
    }

    /** `handleSearch`: record the typed value, then reload the default grid
        when it is empty or search artists by name otherwise. */
    method HandleSearch(value: string, response: Option<seq<Artist>>) returns (q: ArtistQuery)
      requires Valid()
      modifies this
      ensures Valid()
      ensures q == SearchQuery(value)
      ensures State() == old(State()).(
        searchTerm := value,
        artists := if response.Some? then response.value else old(artists))
    {
      searchTerm := value;
      if value == "" {
        q := FetchArtists(response);
      } else {
        q := ByName(value);
        if response.Some? {
          artists := response.value;
        }
      }
    }

    /** `handleGenreSearch`: the genre search box. */
    method HandleGenreSearch(value: string)
      requires Valid()
      modifies this
      ensures Valid()
      ensures State() == old(State()).(genreSearchTerm := value)
      ensures FilteredGenres() == Genres.FilterGenres(old(genres), value)
    {
      genreSearchTerm := value;
    }

    /** `handleBackToArtists`: the "Volver" button of the detail page. */
    method HandleBackToArtists()
      requires Valid()
      modifies this
      ensures Valid()
      ensures State() == old(State()).(youtubeVideos := Some([]), selectedArtist := None)
      ensures CurrentView() == if viewingLibrary then Library else Grid
    {
      youtubeVideos := Some([]);
      selectedArtist := None;
    }

    /** `toggleFavorite`: the heart button. */
    method ToggleFavorite(artist: Artist)
      requires Valid()
      modifies this
      ensures Valid()
      ensures State() == old(State()).(favorites := Favorites.Toggle(old(favorites), artist))
      ensures IsFavorite(artist) == !old(IsFavorite(artist))
      ensures forall b: Artist :: b.id != artist.id ==> IsFavorite(b) == old(IsFavorite(b))
    {
      Favorites.ToggleKeepsUniqueIds(favorites, artist);
      forall b: Artist
        ensures Favorites.IsFavorite(Favorites.Toggle(favorites, artist), b) ==
          if b.id == artist.id then !Favorites.IsFavorite(favorites, artist)
          else Favorites.IsFavorite(favorites, b)
      {
        Favorites.ToggleFlips(favorites, artist, b);
      }
      if Favorites.IsFavorite(favorites, artist) {
        favorites := Favorites.RemoveId(favorites, artist.id);
      } else {
        favorites := favorites + [artist];
      }
    }

    /** `handleViewLibrary`: the "Biblioteca" button. */
    method HandleViewLibrary()
      requires Valid()
      modifies this
      ensures Valid()
      ensures State() == old(State()).(viewingLibrary := true)
      ensures youtubeVideos.Some? ==> CurrentView() == Library
    {
      viewingLibrary := true;
    }

    /** `handleBackToHome`: the "Inicio" button; leaves the library and the
        detail page and reloads the default grid. */
    method HandleBackToHome(response: Option<seq<Artist>>) returns (q: ArtistQuery)
      requires Valid()
      modifies this
      ensures Valid()
      ensures q == ByGenre(DefaultGenre)
      ensures State() == old(State()).(
        viewingLibrary := false,
        selectedArtist := None,
        youtubeVideos := Some([]),
        artists := if response.Some? then response.value else old(artists))
      ensures CurrentView() == Grid
    {
      viewingLibrary := false;
      selectedArtist := None;
      youtubeVideos := Some([]);
      q := FetchArtists(response);
    }

    /** The menu button: open or close the side panel. */
    method ToggleMenu()
      requires Valid()
      modifies this
      ensures Valid()
      ensures State() == old(State()).(menuOpen := !old(menuOpen))
    {
      menuOpen := !menuOpen;
    }
  }
}
