/** `MaskingUtil.maskCard`: hides all but the last four characters of a card
    number behind a fixed "**** **** **** " prefix. */
module MaskingUtil {
  import opened Wrappers

  const MaskPrefix: string := "**** **** **** "

  /** A null card number stays null; four characters or fewer are returned as
      they are; anything longer becomes the prefix and its last four. */
  function MaskCard(pan: Option<string>): (r: Option<string>)
    ensures r.None? <==> pan.None?
    ensures pan.Some? && |pan.value| <= 4 ==> r == pan
    ensures pan.Some? && |pan.value| > 4 ==>
              |r.value| == 19 &&
              r.value[..15] == MaskPrefix &&
              r.value[15..] == pan.value[|pan.value| - 4..]
  {
    match pan
    case None => None
    case Some(s) =>
      if |s| <= 4 then pan else Some(MaskPrefix + s[|s| - 4..])
  }

  /** Whatever the branch, a card number of at least four characters keeps its
      last four characters. */
  lemma MaskCardKeepsLastFour(s: string)
    requires |s| >= 4
    ensures var r := MaskCard(Some(s)).value;
            |r| >= 4 && r[|r| - 4..] == s[|s| - 4..]
  {
    var r := MaskCard(Some(s)).value;
    if |s| > 4 {
      assert r[|r| - 4..] == r[15..];
    }
  }

  /** Masking a masked value changes nothing. */
  lemma MaskCardIdempotent(pan: Option<string>)
    ensures MaskCard(MaskCard(pan)) == MaskCard(pan)
  {
    if pan.Some? && |pan.value| > 4 {
      var r := MaskCard(pan).value;
      assert r[|r| - 4..] == r[15..];
      assert r == MaskPrefix + r[15..];
    }
  }

  /** The example "1234567812345678" masks to "**** **** **** 5678". */
  lemma MaskCardExample()
    ensures MaskCard(Some("1234567812345678")) == Some("**** **** **** 5678")
    ensures MaskCard(Some("1234")) == Some("1234")
  {
    var s := "1234567812345678";
    assert s[|s| - 4..] == "5678";
    assert MaskPrefix + "5678" == "**** **** **** 5678";
  }
}
