/** The application setting service. */
module SettingService {
  import opened Records
  import opened Repository

  const ErrMissingSettingId := Coded("S3040101", "Missing app_setting_id", "Missing required field app_setting_id !!")
  const ErrSettingExists := Coded("S3040102", "Existing app_setting_id", "Given app_setting_id is already exist")

  class SettingBaseService {
    const daoSetting: Dao

    predicate Valid() {
      daoSetting.keyField == SETTING_ID
    }

    constructor (daoSetting: Dao)
      requires daoSetting.keyField == SETTING_ID
      ensures Valid() && this.daoSetting == daoSetting
    {
      this.daoSetting := daoSetting;
    }

    /** Create: the setting id must be given. The duplicate check looks up the
        lower-cased id, but the request is stored unchanged, so under the id
        as given; a clash of the id as given is then the store's error. */
    method Create(indata: Record) returns (settingId: string, err: Option<Error>)
      requires Valid()
      requires StrIfPresent(indata, SETTING_ID)
      modifies daoSetting
      ensures SETTING_ID !in indata ==>
                settingId == "" && err == Some(ErrMissingSettingId) && daoSetting.rows == old(daoSetting.rows)
      ensures SETTING_ID in indata ==>
                var given := indata[SETTING_ID].s;
                if Lower(given) in old(daoSetting.rows) then
                  settingId == Lower(given) && err == Some(ErrSettingExists)
                  && daoSetting.rows == old(daoSetting.rows)
                else if given in old(daoSetting.rows) then
                  settingId == "" && err == Some(Duplicate(SETTING_ID, given))
                  && daoSetting.rows == old(daoSetting.rows)
                else
                  settingId == given && err.None? && daoSetting.rows == old(daoSetting.rows)[given := indata]
      ensures old(KeysAgree(daoSetting.rows, SETTING_ID)) ==> KeysAgree(daoSetting.rows, SETTING_ID)
    {
      if SETTING_ID !in indata {
        return "", Some(ErrMissingSettingId);
      }
      var lowered := Lower(indata[SETTING_ID].s);
      if daoSetting.Get(lowered).Ok? {
        return lowered, Some(ErrSettingExists);
      }
      var created := daoSetting.Create(indata);
      match created
      case Err(e) => settingId, err := "", Some(e);
      case Ok(r) => settingId, err := r[SETTING_ID].s, None;
    }

    /** Update: the setting id is deleted from the request, so no Update
        changes it. */
    method Update(settingId: string, indata: Record) returns (data: Record, err: Option<Error>, indata': Record)
      requires Valid()
      modifies daoSetting
      ensures indata' == Strip(indata, {SETTING_ID})
      ensures settingId in old(daoSetting.rows) ==>
                && err.None? && data == old(daoSetting.rows)[settingId] + indata'
                && daoSetting.rows == old(daoSetting.rows)[settingId := data]
      ensures settingId !in old(daoSetting.rows) ==>
                err == Some(NotFound(SETTING_ID, settingId)) && data == map[]
                && daoSetting.rows == old(daoSetting.rows)
      ensures FieldsKept(old(daoSetting.rows), daoSetting.rows, {SETTING_ID})
      ensures old(KeysAgree(daoSetting.rows, SETTING_ID)) ==> KeysAgree(daoSetting.rows, SETTING_ID)
    {
      indata' := Strip(indata, {SETTING_ID});
      if settingId in daoSetting.rows {
        MergeKeepsFields(daoSetting.rows, settingId, indata', {SETTING_ID}, SETTING_ID);
      }
      var updated := daoSetting.Update(settingId, indata');
      match updated
      case Err(e) => data, err := map[], Some(e);
      case Ok(r) => data, err := r, None;
    }

    /** Delete: removes the setting; an unknown setting is the store's error. */
    method Delete(settingId: string) returns (err: Option<Error>)
      requires Valid()
      modifies daoSetting
      ensures settingId in old(daoSetting.rows) ==>
                err.None? && daoSetting.rows == old(daoSetting.rows) - {settingId}
      ensures settingId !in old(daoSetting.rows) ==>
                err == Some(NotFound(SETTING_ID, settingId)) && daoSetting.rows == old(daoSetting.rows)
    {
      var removed := daoSetting.Delete(settingId);
      match removed
      case Err(e) => err := Some(e);
      case Ok(_) => err := None;
    }
  }
}
