/**
 * Role-based permission checks. A held permission grants a required one
 * when it is `*`, when it is the required string itself, or when it
 * matches it as a shell-style pattern (Python's `fnmatch` on a POSIX
 * system, so case-sensitive): `*` matches any run of characters, `?` any
 * one character, and every other character itself.
 */
module Rbac {
  import opened Wrappers

  /** `fnmatch.fnmatch(name, pattern)` for patterns built from `*`, `?` and literal characters. */
  predicate Match(name: string, pattern: string)
    decreases |pattern|, |name|
  {
    if pattern == [] then name == []
    else if pattern[0] == '*' then Match(name, pattern[1..]) || (name != [] && Match(name[1..], pattern))
    else name != [] && (pattern[0] == '?' || pattern[0] == name[0]) && Match(name[1..], pattern[1..])
  }

  /** A pattern with no wildcard character, which matches only itself. */
  predicate Literal(pattern: string)
  {
    '*' !in pattern && '?' !in pattern && '[' !in pattern
  }

  /** `*` matches every name. */
  lemma {:induction false} StarMatchesAll(name: string)
    ensures Match(name, "*")
    decreases |name|
  {
    if name != [] {
      StarMatchesAll(name[1..]);
    }
  }

  /** A literal pattern matches exactly the name equal to it. */
  lemma {:induction false} LiteralMatchesItself(name: string, pattern: string)
    requires Literal(pattern)
    ensures Match(name, pattern) <==> name == pattern
    decreases |pattern|
  {
    if pattern != [] && name != [] {
      LiteralMatchesItself(name[1..], pattern[1..]);
      if name[1..] == pattern[1..] && name[0] == pattern[0] {
        assert name == [name[0]] + name[1..];
        assert pattern == [pattern[0]] + pattern[1..];
      }
    }
  }

  /** A literal prefix followed by `*` (`user:*`) matches exactly the names that start with that prefix. */
  lemma {:induction false} PrefixStarMatchesExtensions(name: string, prefix: string)
    requires Literal(prefix)
    ensures Match(name, prefix + "*") <==> StartsWith(name, prefix)
    decreases |prefix|
  {
    if prefix == [] {
      assert prefix + "*" == "*";
      StarMatchesAll(name);
    } else {
      assert (prefix + "*")[1..] == prefix[1..] + "*";
      if name != [] {
        PrefixStarMatchesExtensions(name[1..], prefix[1..]);
        if StartsWith(name[1..], prefix[1..]) && name[0] == prefix[0] {
          assert name[..|prefix|] == [name[0]] + name[1..][..|prefix| - 1];
          assert prefix == [prefix[0]] + prefix[1..];
        }
      }
    }
  }

  /** `has_permission`: `*` grants everything, then exact membership, then a pattern match. */
  predicate HasPermission(permissions: set<string>, required: string)
  {
    if "*" in permissions then true
    else if required in permissions then true
    else exists perm :: perm in permissions && Match(required, perm)
  }

  /**
   * What a permission set grants: exactly the names that some held
   * permission equals or matches. The `*` shortcut is the match of `*`
   * itself, so it grants nothing the pattern rule would not.
   */
  lemma Grants(permissions: set<string>, required: string)
    ensures HasPermission(permissions, required) <==>
              exists perm :: perm in permissions && (perm == required || Match(required, perm))
  {
    if "*" in permissions {
      StarMatchesAll(required);
    }
  }

  /** With no pattern among the permissions, a permission is granted iff it is held. */
  lemma LiteralPermissionsGrantMembers(permissions: set<string>, required: string)
    requires forall perm :: perm in permissions ==> Literal(perm)
    ensures HasPermission(permissions, required) <==> required in permissions
  {
    assert !Literal("*");
    forall perm | perm in permissions
      ensures Match(required, perm) <==> perm == required
    {
      LiteralMatchesItself(required, perm);
    }
  }

  /** A pattern without `*` matches only names of its own length. */
  lemma {:induction false} StarlessMatchLength(name: string, pattern: string)
    requires '*' !in pattern
    ensures Match(name, pattern) ==> |name| == |pattern|
    decreases |pattern|
  {
    if pattern != [] && name != [] {
      assert pattern[0] in pattern;
      StarlessMatchLength(name[1..], pattern[1..]);
    }
  }

  /** Denial without a pattern in sight: no `*`, the name not held, and every held permission a `*`-free one of another length. */
  lemma DeniedByLength(permissions: set<string>, required: string)
    requires required !in permissions
    requires forall perm :: perm in permissions ==> '*' !in perm && |perm| != |required|
    ensures !HasPermission(permissions, required)
  {
    forall perm | perm in permissions
      ensures !Match(required, perm)
    {
      StarlessMatchLength(required, perm);
    }
  }

  /** Holding more permissions never turns a grant into a denial. */
  lemma Monotonic(permissions: set<string>, more: set<string>, required: string)
    requires permissions <= more
    requires HasPermission(permissions, required)
    ensures HasPermission(more, required)
  {
    Grants(permissions, required);
    Grants(more, required);
  }

  /** `has_any_permission`: some required permission is granted. */
  predicate HasAny(permissions: set<string>, required: set<string>)
  {
    exists req :: req in required && HasPermission(permissions, req)
  }

  /** `has_all_permissions`: every required permission is granted. */
  predicate HasAll(permissions: set<string>, required: set<string>)
  {
    forall req :: req in required ==> HasPermission(permissions, req)
  }

  /** Nothing required: `any` is false and `all` is true, whatever is held. */
  lemma EmptyRequirement(permissions: set<string>)
    ensures !HasAny(permissions, {}) && HasAll(permissions, {})
  {
  }

  /** A union of requirements: any-of splits into an or, all-of into an and. */
  lemma RequirementUnion(permissions: set<string>, a: set<string>, b: set<string>)
    ensures HasAny(permissions, a + b) <==> HasAny(permissions, a) || HasAny(permissions, b)
    ensures HasAll(permissions, a + b) <==> HasAll(permissions, a) && HasAll(permissions, b)
  {
  }

  /** All-of implies any-of when something is required; both are monotonic in what is held. */
  lemma CombinatorsMonotonic(permissions: set<string>, more: set<string>, required: set<string>)
    requires permissions <= more
    ensures HasAll(permissions, required) ==> HasAll(more, required)
    ensures HasAny(permissions, required) ==> HasAny(more, required)
    ensures required != {} && HasAll(permissions, required) ==> HasAny(permissions, required)
  {
    forall req | req in required && HasPermission(permissions, req)
      ensures HasPermission(more, req)
    {
      Monotonic(permissions, more, req);
    }
  }

  /** Exact membership: `user:read` is granted and `user:delete` is not. */
  lemma ExactMatchCases()
    ensures HasPermission({"user:read", "user:write"}, "user:read")
    ensures !HasPermission({"user:read", "user:write"}, "user:delete")
  {
    LiteralPermissionsGrantMembers({"user:read", "user:write"}, "user:delete");
  }

  /** `*` grants a two-part and a three-part permission alike. */
  lemma WildcardAllCases()
    ensures HasPermission({"*"}, "user:read")
    ensures HasPermission({"*"}, "billing:invoice:create")
  {
  }

  /** `user:*` grants every user action, and `billing:read` grants itself. */
  lemma ResourceWildcardGrants()
    ensures HasPermission({"user:*", "billing:read"}, "user:read")
    ensures HasPermission({"user:*", "billing:read"}, "user:write")
    ensures HasPermission({"user:*", "billing:read"}, "billing:read")
  {
    UserPrefixGrants("user:read");
    UserPrefixGrants("user:write");
  }

  /** `billing:read` does not grant `billing:write`, and neither does `user:*`. */
  lemma ResourceWildcardDenies()
    ensures !HasPermission({"user:*", "billing:read"}, "billing:write")
  {
    var held := {"user:*", "billing:read"};
    assert !Match("billing:write", "user:*") by {
      UserPrefixGrants("billing:write");
      assert "billing:write"[0] != "user:"[0];
    }
    assert !Match("billing:write", "billing:read") by {
      LiteralMatchesItself("billing:write", "billing:read");
    }
    assert "*" !in held && "billing:write" !in held;
    assert forall perm :: perm in held ==> perm == "user:*" || perm == "billing:read";
  }

  /** `user:*` matches a name iff the name starts with `user:`. */
  lemma UserPrefixGrants(name: string)
    ensures Match(name, "user:*") <==> StartsWith(name, "user:")
  {
    assert "user:*" == "user:" + "*";
    PrefixStarMatchesExtensions(name, "user:");
  }

  /** Any-of: holding one of the required permissions is enough. */
  lemma AnyGranted()
    ensures HasAny({"user:read", "billing:write"}, {"user:read", "user:write"})
  {
    assert HasPermission({"user:read", "billing:write"}, "user:read");
  }

  /** Any-of: holding none of the required permissions, nor a pattern for them, is not. */
  lemma AnyDenied()
    ensures !HasAny({"user:read", "billing:write"}, {"user:write", "billing:read"})
  {
    var held := {"user:read", "billing:write"};
    DeniedByLength(held, "user:write");
    DeniedByLength(held, "billing:read");
  }

  /** All-of: holding every required permission is enough. */
  lemma AllGranted()
    ensures HasAll({"user:read", "user:write", "billing:read"}, {"user:read", "billing:read"})
  {
  }

  /** All-of: missing one required permission is not. */
  lemma AllDenied()
    ensures !HasAll({"user:read", "user:write", "billing:read"}, {"user:read", "billing:write"})
  {
    var held := {"user:read", "user:write", "billing:read"};
    DeniedByLength(held, "billing:write");
  }
}
