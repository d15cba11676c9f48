/**
 * A photo album page: the list of photos of one category, kept newest first
 * as uploads arrive, with delete-after-confirm, and the album's display title.
 */
module Album {
  import opened Wrappers
  import Js
  import Seqs

  datatype Photo = Photo(id: string, url: string, category: string)

  /** The photos left after deleting the ones with the given id, in their order. */
  function WithoutPhoto(photos: seq<Photo>, id: string): (r: seq<Photo>)
    ensures forall p :: p in r <==> p in photos && p.id != id
  {
    Seqs.Filter(photos, (p: Photo) => p.id != id)
  }

  /**
   * Deleting a freshly uploaded photo whose id no earlier photo carries gives
   * back the list as it was before the upload.
   */
  lemma {:induction false} DeleteUndoesUpload(photos: seq<Photo>, added: Photo)
    requires forall i :: 0 <= i < |photos| ==> photos[i].id != added.id
    ensures WithoutPhoto([added] + photos, added.id) == photos
  {
    var keep := (p: Photo) => p.id != added.id;
    Seqs.FilterAppend([added], photos, keep);
    Seqs.FilterKeepsAll(photos, keep);
    assert Seqs.Filter([added], keep) == [];
  }

  /** Deleting keeps the other photos in their order, each as often as before. */
  lemma DeleteKeepsOthers(photos: seq<Photo>, id: string)
    ensures Seqs.IsSubsequence(WithoutPhoto(photos, id), photos)
    ensures forall p: Photo :: p.id != id ==> multiset(WithoutPhoto(photos, id))[p] == multiset(photos)[p]
  {
    var keep := (p: Photo) => p.id != id;
    Seqs.FilterOrder(photos, keep);
    forall p: Photo | p.id != id
      ensures multiset(WithoutPhoto(photos, id))[p] == multiset(photos)[p]
    {
      Seqs.FilterCounts(photos, keep, p);
    }
  }

  /** The display name of a category key; an unknown key is shown as it is. */
  function Pretty(key: string): (r: string)
    ensures key == "marriage" ==> r == "Marriage"
    ensures key == "birthday" ==> r == "Birthday"
    ensures key == "other" ==> r == "Other Occasion"
    ensures key != "marriage" && key != "birthday" && key != "other" ==> r == key
  {
    if key == "marriage" then "Marriage"
    else if key == "birthday" then "Birthday"
    else if key == "other" then "Other Occasion"
    else key
  }

  /** A display name is its own display name, and only the three known keys are renamed. */
  lemma PrettyIdempotent(key: string)
    ensures Pretty(Pretty(key)) == Pretty(key)
    ensures Pretty(key) != key <==> key in {"marriage", "birthday", "other"}
  {
  }

  /** The page's state. */
  class AlbumPage {
    var photos: seq<Photo>
    var loading: bool
    var error: string

    constructor ()
      ensures photos == [] && loading && error == ""
    {
      photos := [];
      loading := true;
      error := "";
    }

    /** Loading the category's photos, or the server's message or a fallback. */
    method Load(reply: Result<seq<Photo>, Option<string>>)
      modifies this
      ensures reply.Ok? ==> photos == reply.value && error == ""
      ensures reply.Err? ==> photos == old(photos) && error == Js.MessageOr(reply.error, "Failed to load photos")
      ensures !loading
    {
      loading := true;
      error := "";
      match reply {
        case Ok(data) => photos := data;
        case Err(message) => error := Js.MessageOr(message, "Failed to load photos");
      }
      loading := false;
    }

    /** An uploaded photo goes in front of the others. */
    method Uploaded(photo: Photo)
      modifies this
      ensures photos == [photo] + old(photos)
      ensures loading == old(loading) && error == old(error)
    {
      photos := [photo] + photos;
    }

    /**
     * Deleting a photo: a declined confirm sends nothing and changes nothing;
     * a successful request removes the photos with that id; a failed one keeps
     * the list and alerts the server's message or a fallback.
     */
    method Delete(photo: Photo, confirmed: bool, reply: Result<(), Option<string>>)
      returns (requested: bool, alert: Option<string>)
      modifies this
      ensures requested <==> confirmed
      ensures alert.Some? <==> confirmed && reply.Err?
      ensures confirmed && reply.Ok? ==> photos == WithoutPhoto(old(photos), photo.id)
      ensures !(confirmed && reply.Ok?) ==> photos == old(photos)
      ensures confirmed && reply.Err? ==> alert == Some(Js.MessageOr(reply.error, "Delete failed"))
      ensures loading == old(loading) && error == old(error)
    {
      alert := None;
      requested := confirmed;
      if !confirmed {
        return;
      }
      match reply {
        case Ok(_) => photos := WithoutPhoto(photos, photo.id);
        case Err(message) => alert := Some(Js.MessageOr(message, "Delete failed"));
      }
    }
  }
}
