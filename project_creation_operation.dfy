/** Creating or updating the Black Duck project of a run (ProjectCreationOperation),
    optionally unmapping the code locations already mapped to its version. Either
    service call may throw, which ends the operation. */
module ProjectCreation {
  import opened Common
  import opened Sequences

  /** The service calls `execute` plans, given what the create-or-update call answers. */
  function ProjectCreationCalls(projectNameVersion: NameVersion, wrapper: Option<ProjectVersionWrapper>,
                                shouldUnmapCodeLocations: bool): seq<ServiceCall> {
    [ServiceCall.CreateOrUpdateProject(projectNameVersion)]
      + if wrapper.Some? && shouldUnmapCodeLocations
        then [ServiceCall.UnmapCodeLocations(wrapper.value.projectVersionView)]
        else []
  }

  /** The project is always created or updated first; code locations are unmapped iff the
      server returned a wrapper and the run asks for unmapping, and then the unmap targets
      the wrapper's project version view. */
  lemma UnmapIff(projectNameVersion: NameVersion, wrapper: Option<ProjectVersionWrapper>,
                 shouldUnmapCodeLocations: bool)
    ensures var calls := ProjectCreationCalls(projectNameVersion, wrapper, shouldUnmapCodeLocations);
      && calls[0] == ServiceCall.CreateOrUpdateProject(projectNameVersion)
      && (|calls| == 2 <==> wrapper.Some? && shouldUnmapCodeLocations)
      && (|calls| == 2 ==> calls[1] == ServiceCall.UnmapCodeLocations(wrapper.value.projectVersionView))
      && (|calls| != 2 ==> |calls| == 1)
  {
  }

  /** When the create-or-update call throws, it is the only call made and the operation
      throws: nothing is unmapped. When it returns, the operation throws iff the unmap is
      planned and throws. */
  lemma CreateFailureSkipsUnmap(projectNameVersion: NameVersion, wrapper: Option<ProjectVersionWrapper>,
                                shouldUnmapCodeLocations: bool, throwsOn: ServiceCall -> bool)
    ensures var calls := ProjectCreationCalls(projectNameVersion, wrapper, shouldUnmapCodeLocations);
      throwsOn(ServiceCall.CreateOrUpdateProject(projectNameVersion)) ==>
        UpToFirst(calls, throwsOn) == [ServiceCall.CreateOrUpdateProject(projectNameVersion)] && AnyHolds(calls, throwsOn)
    ensures var calls := ProjectCreationCalls(projectNameVersion, wrapper, shouldUnmapCodeLocations);
      !throwsOn(ServiceCall.CreateOrUpdateProject(projectNameVersion)) ==>
        && UpToFirst(calls, throwsOn) == calls
        && (AnyHolds(calls, throwsOn) <==>
              wrapper.Some? && shouldUnmapCodeLocations
              && throwsOn(ServiceCall.UnmapCodeLocations(wrapper.value.projectVersionView)))
  {
    var create := ServiceCall.CreateOrUpdateProject(projectNameVersion);
    var unmap := if wrapper.Some? && shouldUnmapCodeLocations
                 then [ServiceCall.UnmapCodeLocations(wrapper.value.projectVersionView)] else [];
    UpToFirstSingle(create, throwsOn);
    UpToFirstStep([], [create], unmap, throwsOn);
    if unmap == [] {
      UpToFirstEmpty(throwsOn);
    } else {
      UpToFirstSingle(unmap[0], throwsOn);
      assert unmap == [unmap[0]];
    }
  }

  class ProjectCreationOperation {
    /** RunOptions.shouldUnmapCodeLocations. */
    const shouldUnmapCodeLocations: bool

    constructor (shouldUnmapCodeLocations: bool)
      ensures this.shouldUnmapCodeLocations == shouldUnmapCodeLocations
    {
      this.shouldUnmapCodeLocations := shouldUnmapCodeLocations;
    }

    /** Makes the planned calls up to the first that throws; on normal completion returns
        exactly the wrapper the create-or-update call returned. */
    method Execute(blackDuckServices: BlackDuckServices, projectNameVersion: NameVersion)
      returns (projectVersionWrapper: Completion<Option<ProjectVersionWrapper>>)
      modifies blackDuckServices
      ensures var planned := ProjectCreationCalls(projectNameVersion, blackDuckServices.projectFor(projectNameVersion),
                                                  shouldUnmapCodeLocations);
        && blackDuckServices.calls == old(blackDuckServices.calls) + UpToFirst(planned, blackDuckServices.throwsOn)
        && (projectVersionWrapper.Abrupt? <==> AnyHolds(planned, blackDuckServices.throwsOn))
      ensures projectVersionWrapper.Normal? ==>
        projectVersionWrapper.value == blackDuckServices.projectFor(projectNameVersion)
    {
      ghost var before := blackDuckServices.calls;
      CreateFailureSkipsUnmap(projectNameVersion, blackDuckServices.projectFor(projectNameVersion),
                              shouldUnmapCodeLocations, blackDuckServices.throwsOn);
      projectVersionWrapper := blackDuckServices.CreateOrUpdateProject(projectNameVersion);
      if projectVersionWrapper.Abrupt? {
        return;
      }
      if projectVersionWrapper.value.Some? && shouldUnmapCodeLocations {
        var threw := blackDuckServices.UnmapCodeLocations(projectVersionWrapper.value.value.projectVersionView);
        if threw {
          projectVersionWrapper := Abrupt;
        }
      }
    }
  }
}
