/**
 * The description composer (`extract_description`'s text): name, caption
 * and the flattened fields joined with ". ", cut hard at 2000 characters.
 */
module Description {
  import opened Wrappers
  import opened Strings

  const MAX_DESCRIPTION := 2000

  /** `". ".join([name, caption, txt])`, a missing or None name or caption counting as "". */
  function Untruncated(name: Option<string>, caption: Option<string>, txt: string): string {
    Join([name.GetOr(""), caption.GetOr(""), txt], ". ")
  }

  /** The joined text cut to its first `MAX_DESCRIPTION` characters (`[:2000]`). */
  function ComposeDescription(name: Option<string>, caption: Option<string>, txt: string): (r: string)
    ensures |r| <= MAX_DESCRIPTION
    ensures var full := Untruncated(name, caption, txt); |r| <= |full| && r == full[..|r|]
    ensures var full := Untruncated(name, caption, txt);
      |r| == if |full| <= MAX_DESCRIPTION then |full| else MAX_DESCRIPTION
  {
    var full := Untruncated(name, caption, txt);
    if |full| <= MAX_DESCRIPTION then full else full[..MAX_DESCRIPTION]
  }

  /** The three parts always appear with both separators, even when empty. */
  lemma UntruncatedParts(name: Option<string>, caption: Option<string>, txt: string)
    ensures Untruncated(name, caption, txt) == name.GetOr("") + ". " + caption.GetOr("") + ". " + txt
  {
    var ps := [name.GetOr(""), caption.GetOr(""), txt];
    assert ps[1..] == [caption.GetOr(""), txt];
    assert ps[1..][1..] == [txt];
    assert Join([txt], ". ") == txt;
    assert Join(ps[1..], ". ") == caption.GetOr("") + ". " + txt;
    assert Join(ps, ". ") == name.GetOr("") + ". " + (caption.GetOr("") + ". " + txt);
  }

  /** Name "N", no caption and fragments "f1", "f2" give "N. . f1. f2". */
  lemma Example()
    ensures ComposeDescription(Some("N"), Some(""), Join(["f1", "f2"], ". ")) == "N. . f1. f2"
  {
    assert ["f1", "f2"][1..] == ["f2"];
    assert Join(["f1", "f2"], ". ") == "f1. f2";
    UntruncatedParts(Some("N"), Some(""), "f1. f2");
  }
}
