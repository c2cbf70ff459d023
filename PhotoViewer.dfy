/**
 * The photo viewer: the index the viewer shows, clamped into the album, and its counter.
 */
module PhotoViewer {
  import opened Types
  import opened Text
  import MockData
  import opened Seqs
  import SM = StoreModel

  /** The index the viewer shows: the requested one moved into the album, -1 for an empty album. */
  function SafeIndex(i: int, len: nat): (r: int)
    ensures len > 0 ==> 0 <= r < len
    ensures 0 <= i < len ==> r == i
    ensures len > 0 && i < 0 ==> r == 0
    ensures len > 0 && i >= len ==> r == len - 1
    ensures len == 0 ==> r == -1
  {
    SM.Min(SM.Max(0, i), len - 1)
  }

  datatype View =
    | NoPhotos
    | Showing(photo: Photo, number: int, total: int)

  /** The counter line, "n / m". */
  function CounterText(v: View): string
    requires v.Showing?
  {
    IntToString(v.number) + " / " + IntToString(v.total)
  }

  /** The viewer on the photos of an album. */
  function Render(photos: seq<Photo>, currentIndex: int): View
  {
    var k := SafeIndex(currentIndex, |photos|);
    if |photos| == 0 then NoPhotos else Showing(photos[k], k + 1, |photos|)
  }

  /** An empty album shows "No photos"; otherwise the counter stays in 1..len and names the
      photo shown, and an index inside the album is shown as it is. */
  lemma RenderRules(photos: seq<Photo>, currentIndex: int)
    ensures Render(photos, currentIndex).NoPhotos? <==> photos == []
    ensures var v := Render(photos, currentIndex);
            v.Showing? ==> 1 <= v.number <= v.total == |photos| && v.photo == photos[v.number - 1]
    ensures 0 <= currentIndex < |photos| ==> Render(photos, currentIndex) == Showing(photos[currentIndex], currentIndex + 1, |photos|)
  {
  }

  /** The viewer screen for an album of the library. */
  function RenderAlbum(albumId: string, currentIndex: int): View
  {
    Render(MockData.PhotosByAlbum(albumId), currentIndex)
  }

  /** An album id that names no photos shows "No photos". */
  lemma UnknownAlbumShowsNothing(albumId: string, currentIndex: int)
    requires forall k :: 0 <= k < |MockData.Photos| ==> MockData.Photos[k].albumId != albumId
    ensures RenderAlbum(albumId, currentIndex) == NoPhotos
  {
    FilterNone(MockData.Photos, MockData.InPhotoAlbum(albumId));
  }
}
