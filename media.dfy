/** The `"Movie" | "TV Show"` tag the mock catalogue files put on their entries. */
module Media {
  datatype MediaType = Movie | TVShow

  /** The tag as the catalogue writes it. */
  function Label(t: MediaType): (s: string)
    ensures s == "Movie" || s == "TV Show"
  {
    match t
    case Movie => "Movie"
    case TVShow => "TV Show"
  }

  /** Distinct tags are written differently. */
  lemma LabelInjective(a: MediaType, b: MediaType)
    requires Label(a) == Label(b)
    ensures a == b
  {
  }
}
