/** The password policy, written out, and that the service enforces it. */
module Policy {
  import opened Schema
  import opened Calls

  /** The positions of the characters from this code point on. */
  function AtLeast(s: string, code: int): set<nat> {
    set i | 0 <= i < |s| && s[i] as int >= code
  }

  /** The length in UTF-8 bytes: one for each character, and one more for each that is not ASCII,
      that needs a third byte, and that needs a fourth. */
  function Utf8Length(s: string): nat {
    |s| + |AtLeast(s, 0x80)| + |AtLeast(s, 0x800)| + |AtLeast(s, 0x1_0000)|
  }

  lemma LastCharacterCounts(s: string, code: int)
    requires s != ""
    ensures |AtLeast(s, code)| == |AtLeast(s[..|s| - 1], code)| + if s[|s| - 1] as int >= code then 1 else 0
  {
    var n := |s| - 1;
    assert AtLeast(s, code) == AtLeast(s[..n], code) + if s[n] as int >= code then {n} else {};
  }

  lemma {:induction false} ByteLengthIsUtf8Length(s: string)
    ensures ByteLength(s) == Utf8Length(s)
  {
    if s == "" {
      assert AtLeast(s, 0x80) == {} && AtLeast(s, 0x800) == {} && AtLeast(s, 0x1_0000) == {};
    } else {
      ByteLengthIsUtf8Length(s[..|s| - 1]);
      LastCharacterCounts(s, 0x80);
      LastCharacterCounts(s, 0x800);
      LastCharacterCounts(s, 0x1_0000);
    }
  }

  /** Long enough in UTF-8 bytes, with an upper-case letter, a lower-case letter and an ASCII digit. */
  ghost predicate Strong(cfg: Config, password: string) {
    && Utf8Length(password) >= cfg.minPasswordLength
    && (exists i, j, k ::
          && 0 <= i < |password| && cfg.lib.isUpper(password[i])
          && 0 <= j < |password| && cfg.lib.isLower(password[j])
          && 0 <= k < |password| && '0' <= password[k] <= '9')
  }

  /** The service's check is the policy. */
  lemma CheckIsPolicy(cfg: Config, password: string)
    ensures Acceptable(cfg, password) <==> Strong(cfg, password)
  {
    ByteLengthIsUtf8Length(password);
    if Acceptable(cfg, password) {
      var i :| 0 <= i < |password| && cfg.lib.isUpper(password[i]);
      var j :| 0 <= j < |password| && cfg.lib.isLower(password[j]);
      var k :| 0 <= k < |password| && '0' <= password[k] <= '9';
    }
  }

  /** A password that is too short in bytes, or lacks an upper-case letter, a lower-case letter or
      a digit, is refused by registration and reset before any statement, whatever fails; no table
      changes. */
  lemma WeakPasswordsAreRefused(cfg: Config, db: Db, signed: set<string>, req: Request)
    requires req.call.Register? || req.call.ResetPassword?
    requires
      var p := req.call.password;
      || Utf8Length(p) < cfg.minPasswordLength
      || (forall i :: 0 <= i < |p| ==> !cfg.lib.isUpper(p[i]))
      || (forall i :: 0 <= i < |p| ==> !cfg.lib.isLower(p[i]))
      || (forall i :: 0 <= i < |p| ==> !('0' <= p[i] <= '9'))
    ensures Outcome(cfg, db, signed, req) == (db, Err(WeakPassword))
  {
    CheckIsPolicy(cfg, req.call.password);
  }
}
