/** The shape of the random-user API's JSON body, as the app decodes it. */
module MockAPIResponse {

  datatype APIName = APIName(first: string, last: string)

  datatype APIDob = APIDob(age: int)

  datatype APILocation = APILocation(city: string)

  datatype APIPicture = APIPicture(large: string)

  datatype APIUser = APIUser(name: APIName, dob: APIDob, location: APILocation, picture: APIPicture)

  datatype APIResponse = APIResponse(results: seq<APIUser>)
}
