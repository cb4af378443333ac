/** The project form of the sidebar: the slug derived from the typed name, the
    project it asks the server to create, and the form reset on success. */
module Sidebar {
  import opened Wrappers
  import opened Strings
  import Seqs
  import opened Schema

  /** `name.toLowerCase().replace(/\s+/g, "-")`. */
  function Slug(name: string): string {
    CollapseSpaces(Lower(name), '-')
  }

  lemma LowerKeepsSpaces(name: string)
    ensures forall i :: 0 <= i < |name| ==> IsSpace(Lower(name)[i]) == IsSpace(name[i])
  {
    LowerPointwise(name);
  }

  /** A slug holds no whitespace. */
  lemma SlugHasNoSpace(name: string)
    ensures forall i :: 0 <= i < |Slug(name)| ==> !IsSpace(Slug(name)[i])
  {
    CollapseSpacesShape(Lower(name), '-');
  }

  /** The name's characters other than whitespace and '-' appear in the slug
      lower-cased and in the same order. */
  lemma SlugKeepsCharacters(name: string, q: char -> bool)
    requires !q('-') && forall x :: IsSpace(x) ==> !q(x)
    ensures Seqs.Filter(Slug(name), q) == Seqs.Filter(Lower(name), q)
  {
    CollapseSpacesKeeps(Lower(name), '-', q);
  }

  /** The slug is not trimmed: whitespace at either end of the name becomes a
      '-' at that end, and a name that neither starts nor ends with whitespace
      gives a slug that starts and ends with its own lower-cased characters. */
  lemma SlugNotTrimmed(name: string)
    requires name != []
    ensures Slug(name) != []
    ensures IsSpace(name[0]) ==> Slug(name)[0] == '-'
    ensures IsSpace(name[|name| - 1]) ==> Slug(name)[|Slug(name)| - 1] == '-'
    ensures !IsSpace(name[0]) ==> Slug(name)[0] == LowerChar(name[0])
    ensures !IsSpace(name[|name| - 1]) ==> Slug(name)[|Slug(name)| - 1] == LowerChar(name[|name| - 1])
  {
    var low := Lower(name);
    LowerKeepsSpaces(name);
    LowerPointwise(name);
    if IsSpace(name[0]) {
      assert CollapseSpaces(low, '-') == ['-'] + CollapseSpaces(DropSpaces(low[1..]), '-');
    } else {
      CollapseStartsWith(low, '-');
    }
    if IsSpace(name[|name| - 1]) {
      CollapseEndsWithReplacement(low, '-');
    } else {
      CollapseEndsWith(low, '-');
    }
  }

  /** The project the form asks for: the name as typed, its slug, colour black. */
  function NewProject(name: string): InsertProject {
    InsertProject(name, Slug(name), Present("#000000"))
  }

  /** The row the server stores for it keeps the name and the slug and is black. */
  lemma NewProjectRowSpec(id: int, name: string)
    ensures NewProjectRow(id, NewProject(name)) == Project(id, name, Slug(name), DefaultColor)
  {
  }

  /** The sidebar's project dialog state. */
  class ProjectForm {
    var isProjectDialogOpen: bool
    var newProjectName: string

    constructor ()
      ensures !isProjectDialogOpen && newProjectName == ""
    {
      isProjectDialogOpen := false;
      newProjectName := "";
    }

    /** `handleCreateProject`: sends the project for the typed name; `succeeded` is
        the mutation's outcome. Only a success closes the dialog and clears the name. */
    method CreateProject(succeeded: bool) returns (request: InsertProject)
      modifies this
      ensures request == NewProject(old(newProjectName))
      ensures succeeded ==> !isProjectDialogOpen && newProjectName == ""
      ensures !succeeded ==> isProjectDialogOpen == old(isProjectDialogOpen) && newProjectName == old(newProjectName)
    {
      request := NewProject(newProjectName);
      if succeeded {
        isProjectDialogOpen := false;
        newProjectName := "";
      }
    }
  }
}
