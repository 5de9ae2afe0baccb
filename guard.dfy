/**
  The relevance guard's decision: the checker model's reply counts as
  "on topic" when, after `.strip().lower()`, it contains the substring "ja".
*/
module Guard {
  import opened Text

  /** The token the relevance check looks for. */
  const Affirmative: string := "ja"

  /** `"ja" in reply.strip().lower()`. */
  predicate IsOnTopicReply(reply: string) {
    Contains(Lower(Strip(reply)), Affirmative)
  }

  predicate IsJ(c: char) { c == 'j' || c == 'J' }

  predicate IsA(c: char) { c == 'a' || c == 'A' }

  /** At index `i` the text spells "ja" in any mix of upper and lower case. */
  predicate JaAt(s: string, i: int) {
    0 <= i && i + 1 < |s| && IsJ(s[i]) && IsA(s[i + 1])
  }

  /** After lower-casing, "ja" occurs exactly where the original spells j/J followed by a/A. */
  lemma LowerContainsJa(t: string)
    ensures Contains(Lower(t), Affirmative) <==> exists j :: JaAt(t, j)
  {
    var l := Lower(t);
    forall j | OccursAt(l, Affirmative, j) ensures JaAt(t, j) {
      assert l[j] == l[j..j + 2][0] == 'j';
      assert l[j + 1] == l[j..j + 2][1] == 'a';
      assert LowerChar(t[j]) == 'j' && LowerChar(t[j + 1]) == 'a';
    }
    forall j | JaAt(t, j) ensures OccursAt(l, Affirmative, j) {
      assert LowerChar(t[j]) == 'j' && LowerChar(t[j + 1]) == 'a';
      assert l[j..j + 2] == [l[j], l[j + 1]];
    }
  }

  /** A "ja" inside a slice is a "ja" of the whole text. */
  lemma JaOfSlice(s: string, k: int, m: int, j: int)
    requires 0 <= k <= m <= |s| && JaAt(s[k..m], j)
    ensures JaAt(s, k + j)
  {
    assert s[k..m][j] == s[k + j] && s[k..m][j + 1] == s[k + j + 1];
  }

  /** A "ja" of a text lies inside any slice that only cuts away whitespace. */
  lemma JaInSlice(s: string, k: int, m: int, i: int)
    requires 0 <= k <= m <= |s| && AllSpace(s[..k]) && AllSpace(s[m..])
    requires JaAt(s, i)
    ensures JaAt(s[k..m], i - k)
  {
    if k <= i && i + 1 < m {
      assert s[k..m][i - k] == s[i] && s[k..m][i - k + 1] == s[i + 1];
    }
  }

  /** Stripping whitespace neither creates nor removes a "ja": the letters j and a are not whitespace. */
  lemma StripKeepsJa(s: string)
    ensures (exists j :: JaAt(Strip(s), j)) <==> (exists i :: JaAt(s, i))
  {
    var t := Strip(s);
    var k := StripOffset(s);
    var m := k + |t|;
    assert t == s[k..m];
    forall j | JaAt(s[k..m], j) ensures JaAt(s, k + j) {
      JaOfSlice(s, k, m, j);
    }
    forall i | JaAt(s, i) ensures JaAt(s[k..m], i - k) {
      JaInSlice(s, k, m, i);
    }
  }

  /**
    The guard accepts a reply exactly when the reply, anywhere, spells j or J
    directly followed by a or A. Every other reply, the empty one included,
    is treated as off-topic.
  */
  lemma GuardDecision(reply: string)
    ensures IsOnTopicReply(reply) <==> exists i :: JaAt(reply, i)
  {
    LowerContainsJa(Strip(reply));
    StripKeepsJa(reply);
  }

  /**
    The affirmative replies the prompt asks for are accepted whatever their
    case and whatever surrounds them, as in "Ja", " JA.\n" or "ja".
  */
  lemma GuardAcceptsJa(before: string, after: string)
    ensures IsOnTopicReply(before + "Ja" + after)
    ensures IsOnTopicReply(before + "JA" + after)
    ensures IsOnTopicReply(before + "ja" + after)
  {
    var i := |before|;
    var r1, r2, r3 := before + "Ja" + after, before + "JA" + after, before + "ja" + after;
    assert r1[i] == 'J' && r1[i + 1] == 'a' && JaAt(r1, i);
    assert r2[i] == 'J' && r2[i + 1] == 'A' && JaAt(r2, i);
    assert r3[i] == 'j' && r3[i + 1] == 'a' && JaAt(r3, i);
    GuardDecision(r1);
    GuardDecision(r2);
    GuardDecision(r3);
  }

  /** A text without the letter j holds no "ja". */
  lemma NoJNoJa(s: string)
    requires forall i :: 0 <= i < |s| ==> !IsJ(s[i])
    ensures forall i :: !JaAt(s, i)
  {
  }

  /** "Nein" and the empty reply take the off-topic branch. */
  lemma GuardRejectsNeinAndEmpty()
    ensures !IsOnTopicReply("Nein") && !IsOnTopicReply("")
  {
    NoJNoJa("Nein");
    GuardDecision("Nein");
    GuardDecision("");
  }

  /**
    A negative reply fails to keep the question out as soon as it mentions a
    word holding "ja", such as "Nein, mit Japan hat das nichts zu tun."
  */
  lemma GuardAcceptsNegativeMentioningJa(before: string, after: string)
    ensures IsOnTopicReply("Nein, " + before + "Ja" + after)
  {
    var reply := "Nein, " + before + "Ja" + after;
    var i := 6 + |before|;
    assert reply[i] == 'J' && reply[i + 1] == 'a';
    assert JaAt(reply, i);
    GuardDecision(reply);
  }
}
