/**
 * The record types of types.ts.
 *
 * `Song.title`, `Song.artist` and `Song.album` are declared `string` in
 * types.ts, but the values built by the service layer copy whatever the
 * decoded response held (the response schema's `required` list is a request
 * to the remote service, not something the client checks), so at run time
 * they may be `undefined`.  The model keeps them optional; `Option` equality
 * is exactly JavaScript's `===` on `string | undefined`.
 */
module Types {

  /** A JavaScript value that is either a string or `undefined`. */
  datatype Option<T> = None | Some(value: T)

  /** `ViewState`: which of the four screens is shown. */
  datatype ViewState = Main | Search | Detail | Saved

  /** `Song`: one track as the view layer stores and shows it. */
  datatype Song = Song(
    id: string,
    title: Option<string>,
    artist: Option<string>,
    album: Option<string>,
    year: Option<string>,
    duration: Option<string>,
    thumbnail: string,
    youtubeId: Option<string>,
    youtubeMusicUrl: string)
}
