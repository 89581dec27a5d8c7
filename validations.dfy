/** The playlist-name check of utils/validations.py. */
module Validations {

  /** The character class `[<>:"/\\|?*]`: nine characters a file name may not hold. */
  const InvalidChars: set<char> := {'<', '>', ':', '"', '/', '\\', '|', '?', '*'}

  /** The fixed text returned for every rejected name, blank lines and indentation included. */
  const InvalidNameMessage: string :=
    "\n        The playlist name contains invalid characters: < > : \" / \\ | ? *\n\n        Please remove any invalid character.\n        "

  /** `re.search` with the character class: scans the name for any invalid character. */
  function SearchInvalid(name: string): (found: bool)
    ensures found <==> exists i :: 0 <= i < |name| && name[i] in InvalidChars
  {
    if name == [] then false
    else name[0] in InvalidChars || SearchInvalid(name[1..])
  }

  /**
   * `validate_playlist_name`: a name is valid exactly when none of its
   * characters is invalid; a valid name comes with the empty message, an
   * invalid one with the fixed, non-empty message.
   */
  function ValidatePlaylistName(name: string): (r: (bool, string))
    ensures r.0 <==> forall i :: 0 <= i < |name| ==> name[i] !in InvalidChars
    ensures r.0 ==> r.1 == ""
    ensures !r.0 ==> r.1 == InvalidNameMessage && |r.1| > 0
  {
    if SearchInvalid(name) then (false, InvalidNameMessage) else (true, "")
  }

  /** The empty name passes the check (the app itself refuses it earlier). */
  lemma EmptyNameValid()
    ensures ValidatePlaylistName("") == (true, "")
  {
  }

  /** A name of one character is rejected exactly when that character is one of the nine. */
  lemma SingleCharacter(c: char)
    ensures !ValidatePlaylistName([c]).0 <==> c in InvalidChars
  {
    assert [c][0] == c;
  }

  /** Putting anything before or after an invalid name leaves it invalid. */
  lemma InvalidConcat(s: string, t: string)
    requires !ValidatePlaylistName(s).0
    ensures !ValidatePlaylistName(s + t).0
    ensures !ValidatePlaylistName(t + s).0
  {
    var i :| 0 <= i < |s| && s[i] in InvalidChars;
    assert (s + t)[i] == s[i];
    assert (t + s)[|t| + i] == s[i];
  }

  /** All rejected names get the same message. */
  lemma SameMessage(s: string, t: string)
    requires !ValidatePlaylistName(s).0 && !ValidatePlaylistName(t).0
    ensures ValidatePlaylistName(s).1 == ValidatePlaylistName(t).1
  {
  }

}
