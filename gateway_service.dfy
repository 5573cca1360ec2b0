/** The gateway's service layer: one call into the client per operation, its
    value or its error handed back unchanged, so the handlers can still tell
    the client's error types apart. */
module GatewayService {
  import opened Shared
  import opened Errors
  import GatewayClient

  datatype Service = Service(client: GatewayClient.Client)

  function Get(s: Service, id: Int64): (r: Result<Task, Error>)
    ensures r == GatewayClient.GetTask(s.client, id)
  {
    match GatewayClient.GetTask(s.client, id)
    case Err(e) => Err(e)
    case Ok(task) => Ok(task)
  }

  function GetAll(s: Service): (r: Result<seq<Task>, Error>)
    ensures r == GatewayClient.GetAllTasks(s.client)
  {
    match GatewayClient.GetAllTasks(s.client)
    case Err(e) => Err(e)
    case Ok(tasks) => Ok(tasks)
  }

  function Post(s: Service, task: Task): (r: Result<Int64, Error>)
    ensures r == GatewayClient.PostTask(s.client, task)
  {
    match GatewayClient.PostTask(s.client, task)
    case Err(e) => Err(e)
    case Ok(id) => Ok(id)
  }

  function Delete(s: Service, id: Int64): (r: Outcome<Error>)
    ensures r == GatewayClient.Delete(s.client, id)
  {
    match GatewayClient.Delete(s.client, id)
    case Fail(e) => Fail(e)
    case Pass => Pass
  }

  function Update(s: Service, id: Int64): (r: Outcome<Error>)
    ensures r == GatewayClient.Update(s.client, id)
  {
    match GatewayClient.Update(s.client, id)
    case Fail(e) => Fail(e)
    case Pass => Pass
  }
}
