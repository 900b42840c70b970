/** Project scopes and permission levels of a caller (arp/server/scope.go, arp/server/server.go). */
module Scopes {
  import opened JsonTree
  import opened Text

  datatype Permission = PermUnspecified | PermSession | PermProject | PermAdmin {
    function Rank(): nat {
      match this
      case PermUnspecified => 0
      case PermSession => 1
      case PermProject => 2
      case PermAdmin => 3
    }
  }

  datatype Scope = Scope(global: bool, projects: seq<string>)

  /** A nil scope is global, and so is one with the global flag. */
  predicate IsGlobal(scope: Option<Scope>) {
    scope.None? || scope.value.global
  }

  predicate CanAccess(scope: Option<Scope>, name: string) {
    IsGlobal(scope) || name in scope.value.projects
  }

  /** No wider: whatever `child` reaches, `parent` reaches. The meaning the issuing code relies on. */
  ghost predicate NoWider(child: Option<Scope>, parent: Option<Scope>) {
    forall name :: CanAccess(child, name) ==> CanAccess(parent, name)
  }

  /** The answer of the narrowing check, branch by branch. */
  predicate Subset(child: Option<Scope>, parent: Option<Scope>) {
    if IsGlobal(parent) then true
    else if child.None? then true
    else if child.value.global then false
    else forall c | c in child.value.projects :: c in parent.value.projects
  }

  /** The check as the server runs it: collect the parent's names, then look each child name up. */
  method ScopeSubset(child: Option<Scope>, parent: Option<Scope>) returns (ok: bool)
    ensures ok == Subset(child, parent)
  {
    if parent.None? || parent.value.global {
      return true;
    }
    if child.None? {
      return true;
    }
    if child.value.global {
      return false;
    }
    var parentSet: set<string> := {};
    for i := 0 to |parent.value.projects|
      invariant forall p :: p in parentSet <==> p in parent.value.projects[..i]
    {
      parentSet := parentSet + {parent.value.projects[i]};
    }
    assert parent.value.projects == parent.value.projects[..|parent.value.projects|];
    for i := 0 to |child.value.projects|
      invariant forall k | 0 <= k < i :: child.value.projects[k] in parent.value.projects
    {
      if child.value.projects[i] !in parentSet {
        return false;
      }
    }
    return true;
  }

  /** No finite list holds every project name. */
  lemma FreshName(names: seq<string>) returns (name: string)
    ensures name !in names
  {
    name := NameOutside(set n | n in names);
  }

  /**
   * The check is exact on explicit scopes: it says yes if and only if every project name the child
   * reaches, out of infinitely many, the parent reaches too.
   */
  lemma SubsetIsExact(child: Scope, parent: Option<Scope>)
    ensures Subset(Some(child), parent) <==> NoWider(Some(child), parent)
  {
    if !IsGlobal(parent) {
      if child.global {
        var name := FreshName(parent.value.projects);
        assert CanAccess(Some(child), name) && !CanAccess(parent, name);
      } else if NoWider(Some(child), parent) {
        forall c | c in child.projects ensures c in parent.value.projects {
          assert CanAccess(Some(child), c);
        }
      }
    }
  }

  /**
   * With a nil child the check means "inherit": it says yes although the nil scope itself is
   * global, so it is exact there just when the parent is global.
   */
  lemma NilChildPasses(parent: Option<Scope>)
    ensures Subset(None, parent)
    ensures NoWider(None, parent) <==> IsGlobal(parent)
  {
    if !IsGlobal(parent) {
      var name := FreshName(parent.value.projects);
      assert CanAccess(None, name) && !CanAccess(parent, name);
    }
  }

  /** Narrowing twice is narrowing, when the scope in the middle is explicit. */
  lemma SubsetIsTransitive(a: Scope, b: Scope, c: Option<Scope>)
    requires Subset(Some(a), Some(b)) && Subset(Some(b), c)
    ensures Subset(Some(a), c)
  {
    SubsetIsExact(a, Some(b));
    SubsetIsExact(b, c);
    SubsetIsExact(a, c);
    assert NoWider(Some(a), c) by {
      forall name | CanAccess(Some(a), name) ensures CanAccess(c, name) {
        assert CanAccess(Some(b), name);
      }
    }
  }
}
