/**
 * The records the build task exchanges with the control plane, reduced to
 * the fields the build task reads or writes.
 */
module Dto {
  import opened Wrappers
  import opened Constants

  /** A build run as the control plane returns it. */
  datatype BuildRun = BuildRun(id: string, buildConfigId: string)

  /** Where the Dockerfile and the build context live inside the repository. */
  datatype OciBuildDetails = OciBuildDetails(workingDir: string, dockerFilePath: string)

  /** `OCIBuildDetails` is a pointer in the source; `None` is a nil pointer. */
  datatype BuildConfigDetails = BuildConfigDetails(ociBuildDetails: Option<OciBuildDetails>)

  /** The build recipe of a build configuration. */
  datatype BuildConfig = BuildConfig(id: string, name: string, artifactoryId: string, details: BuildConfigDetails)

  /** A short-lived credential lease for one container registry. */
  datatype RegistryAccess = RegistryAccess(username: string, password: string, url: string, urlWithPrefix: string)

  /** One build-time secret. */
  datatype BuildSecret = BuildSecret(key: string, value: string)

  /** The secrets response; `data` is its `BuildSecretsData.Data` list. */
  datatype BuildSecretFetch = BuildSecretFetch(data: seq<BuildSecret>)

  /** The identity service's answer to the API-token exchange. */
  datatype TokenResponse = TokenResponse(expires: string, expiresIn: int, accessToken: string, refreshToken: string)

  /** The JSON body of a build-run callback: the payload's field values when it is sent. */
  datatype CallbackBody = CallbackBody(imageTag: string, image: string, status: BuildRunStatus, error: string)

  /** The callback payload the build task allocates and then fills in field by field. */
  class BuildRunCallbackPayload {
    var imageTag: string
    var image: string
    var status: BuildRunStatus
    var error: string

    /** `&BuildRunCallbackPayload{Status: Failed}`: every other field is the empty string. */
    constructor (status: BuildRunStatus)
      ensures Body() == CallbackBody("", "", status, "")
    {
      imageTag, image, this.status, error := "", "", status, "";
    }

    /** The value `*payload` the callback sends. */
    function Body(): CallbackBody
      reads this
    {
      CallbackBody(imageTag, image, status, error)
    }
  }
}
